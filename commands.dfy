/** The MSP command-code table (src/msp/commands.rs): a closed enumeration
    of command names, each carrying a numeric code, and the partial lookup
    from a 16-bit code back to a name.

    The names keep their spelling from the table.  They are grouped by the
    sections the table is laid out in; a command is written with its
    section, as in `MultiWiiQueries(MSP_IDENT)`.  The sections follow the
    firmware families the table names (Cleanflight, MultiWii, Baseflight,
    Betaflight, INAV); the longer ones are split by purpose. */
module Commands {
  import opened Wrappers
  import opened Packet

  /** A command: its section and its name within that section. */
  datatype MspCommandCode =
    | Common(common: CommonCommand)
    | CleanflightSetup(cleanflightSetup: CleanflightSetupCommand)
    | CleanflightTuning(cleanflightTuning: CleanflightTuningCommand)
    | CleanflightLogging(cleanflightLogging: CleanflightLoggingCommand)
    | CleanflightDevices(cleanflightDevices: CleanflightDevicesCommand)
    | Osd(osd: OsdCommand)
    | MultiWiiQueries(multiWiiQueries: MultiWiiQueriesCommand)
    | MultiWiiSettings(multiWiiSettings: MultiWiiSettingsCommand)
    | MultiWiiStorage(multiWiiStorage: MultiWiiStorageCommand)
    | Baseflight(baseflight: BaseflightCommand)
    | Betaflight(betaflight: BetaflightCommand)
    | Inav(inav: InavCommand)

  /** Identification of the protocol, the firmware and the board: codes 1 to 5. */
  datatype CommonCommand =
    | MSP_API_VERSION
    | MSP_FC_VARIANT
    | MSP_FC_VERSION
    | MSP_BOARD_INFO
    | MSP_BUILD_INFO

  /** Cleanflight setup: battery, modes, features, board alignment, amperage meter, mixer, receiver and LED colours; codes 32 to 47. */
  datatype CleanflightSetupCommand =
    | MSP_BATTERY_CONFIG
    | MSP_SET_BATTERY_CONFIG
    | MSP_MODE_RANGES
    | MSP_SET_MODE_RANGE
    | MSP_FEATURE
    | MSP_SET_FEATURE
    | MSP_BOARD_ALIGNMENT
    | MSP_SET_BOARD_ALIGNMENT
    | MSP_AMPERAGE_METER_CONFIG
    | MSP_SET_AMPERAGE_METER_CONFIG
    | MSP_MIXER
    | MSP_SET_MIXER
    | MSP_RX_CONFIG
    | MSP_SET_RX_CONFIG
    | MSP_LED_COLORS
    | MSP_SET_LED_COLORS

  /** Cleanflight tuning: LED strip, RSSI, adjustments, serial ports, voltage meter, sonar, PID controller and arming; codes 48 to 62. */
  datatype CleanflightTuningCommand =
    | MSP_LED_STRIP_CONFIG
    | MSP_SET_LED_STRIP_CONFIG
    | MSP_RSSI_CONFIG
    | MSP_SET_RSSI_CONFIG
    | MSP_ADJUSTMENT_RANGES
    | MSP_SET_ADJUSTMENT_RANGE
    | MSP_CF_SERIAL_CONFIG
    | MSP_SET_CF_SERIAL_CONFIG
    | MSP_VOLTAGE_METER_CONFIG
    | MSP_SET_VOLTAGE_METER_CONFIG
    | MSP_SONAR
    | MSP_PID_CONTROLLER
    | MSP_SET_PID_CONTROLLER
    | MSP_ARMING_CONFIG
    | MSP_SET_ARMING_CONFIG

  /** Cleanflight dataflash, loop time, failsafe, SD card, blackbox and transponder: codes 70 to 83. */
  datatype CleanflightLoggingCommand =
    | MSP_DATAFLASH_SUMMARY
    | MSP_DATAFLASH_READ
    | MSP_DATAFLASH_ERASE
    | MSP_LOOP_TIME
    | MSP_SET_LOOP_TIME
    | MSP_FAILSAFE_CONFIG
    | MSP_SET_FAILSAFE_CONFIG
    | MSP_RXFAIL_CONFIG
    | MSP_SET_RXFAIL_CONFIG
    | MSP_SDCARD_SUMMARY
    | MSP_BLACKBOX_CONFIG
    | MSP_SET_BLACKBOX_CONFIG
    | MSP_TRANSPONDER_CONFIG
    | MSP_SET_TRANSPONDER_CONFIG

  /** Cleanflight OSD characters, LED strip mode colours, meters, battery state and motor configuration: codes 84 to 87, 127 to 131, and 221. */
  datatype CleanflightDevicesCommand =
    | MSP_OSD_CONFIG
    | MSP_SET_OSD_CONFIG
    | MSP_OSD_CHAR_READ
    | MSP_OSD_CHAR_WRITE
    | MSP_LED_STRIP_MODECOLOR
    | MSP_SET_LED_STRIP_MODECOLOR
    | MSP_VOLTAGE_METERS
    | MSP_AMPERAGE_METERS
    | MSP_BATTERY_STATE
    | MSP_MOTOR_CONFIG

  /** OSD video and layout: codes 180 to 185. */
  datatype OsdCommand =
    | MSP_OSD_VIDEO_CONFIG
    | MSP_SET_OSD_VIDEO_CONFIG
    | MSP_OSD_VIDEO_STATUS
    | MSP_OSD_ELEMENT_SUMMARY
    | MSP_OSD_LAYOUT_CONFIG
    | MSP_SET_OSD_LAYOUT_CONFIG

  /** MultiWii queries: codes 100 to 126. */
  datatype MultiWiiQueriesCommand =
    | MSP_IDENT
    | MSP_STATUS
    | MSP_RAW_IMU
    | MSP_SERVO
    | MSP_MOTOR
    | MSP_RC
    | MSP_RAW_GPS
    | MSP_COMP_GPS
    | MSP_ATTITUDE
    | MSP_ALTITUDE
    | MSP_ANALOG
    | MSP_RC_TUNING
    | MSP_PID
    | MSP_BOX
    | MSP_MISC
    | MSP_MOTOR_PINS
    | MSP_BOXNAMES
    | MSP_PIDNAMES
    | MSP_WP
    | MSP_BOXIDS
    | MSP_SERVO_CONFIGURATIONS
    | MSP_MOTOR_3D_CONFIG
    | MSP_RC_DEADBAND
    | MSP_SENSOR_ALIGNMENT

  /** MultiWii settings and calibrations: codes 200 to 220. */
  datatype MultiWiiSettingsCommand =
    | MSP_SET_RAW_RC
    | MSP_SET_RAW_GPS
    | MSP_SET_PID
    | MSP_SET_BOX
    | MSP_SET_RC_TUNING
    | MSP_ACC_CALIBRATION
    | MSP_MAG_CALIBRATION
    | MSP_SET_MISC
    | MSP_RESET_CONF
    | MSP_SET_WP
    | MSP_SELECT_SETTING
    | MSP_SET_HEAD
    | MSP_SET_SERVO_CONFIGURATION
    | MSP_SET_MOTOR
    | MSP_SET_3D
    | MSP_SET_RC_DEADBAND
    | MSP_SET_RESET_CURR_PID
    | MSP_SET_SENSOR_ALIGNMENT

  /** MultiWii servo mixing, EEPROM writing and debugging (codes 241 to 254), and MSP_BF_CONFIG (code 66). */
  datatype MultiWiiStorageCommand =
    | MSP_SERVO_MIX_RULES
    | MSP_SET_SERVO_MIX_RULE
    | MSP_EEPROM_WRITE
    | MSP_DEBUGMSG
    | MSP_DEBUG
    | MSP_BF_CONFIG

  /** Baseflight extensions and Baseflight configurator commands: codes 64 to 69 and 150 to 240. */
  datatype BaseflightCommand =
    | MSP_UID
    | MSP_STATUS_EX
    | MSP_ACC_TRIM
    | MSP_SET_ACC_TRIM
    | MSP_GPS_SV_INFO
    | MSP_RX_MAP
    | MSP_SET_RX_MAP
    | MSP_SET_REBOOT
    | MSP_BF_BUILD_INFO

  /** Betaflight configuration: codes 90 to 97. */
  datatype BetaflightCommand =
    | MSP_ADVANCED_CONFIG
    | MSP_SET_ADVANCED_CONFIG
    | MSP_FILTER_CONFIG
    | MSP_SET_FILTER_CONFIG
    | MSP_PID_ADVANCED
    | MSP_SET_PID_ADVANCED
    | MSP_SENSOR_CONFIG
    | MSP_SET_SENSOR_CONFIG

  /** INAV commands of MSP version 2: codes 0x1003 to 0x2021. */
  datatype InavCommand =
    | MSP2_COMMON_SETTING
    | MSP2_COMMON_SET_SETTING
    | MSP2_MOTOR_MIXER
    | MSP2_SET_MOTOR_MIXER
    | MSP2_COMMON_SETTING_INFO
    | MSP2_COMMON_PG_LIST
    | MSP2_SERIAL_CONFIG
    | MSP2_SET_SERIAL_CONFIG
    | MSP2_INAV_OSD_LAYOUTS
    | MSP2_INAV_OSD_SET_LAYOUT_ITEM
    | MSP2_INAV_OSD_ALARMS
    | MSP2_INAV_OSD_SET_ALARMS
    | MSP2_INAV_OSD_PREFERENCES
    | MSP2_INAV_OSD_SET_PREFERENCES
    | MSP2_INAV_SERVO_MIXER
    | MSP2_INAV_SET_SERVO_MIXER

  /** The numeric code of a command. */
  function Code(c: MspCommandCode): u16
  {
    match c
    case Common(x) => CommonCode(x)
    case CleanflightSetup(x) => CleanflightSetupCode(x)
    case CleanflightTuning(x) => CleanflightTuningCode(x)
    case CleanflightLogging(x) => CleanflightLoggingCode(x)
    case CleanflightDevices(x) => CleanflightDevicesCode(x)
    case Osd(x) => OsdCode(x)
    case MultiWiiQueries(x) => MultiWiiQueriesCode(x)
    case MultiWiiSettings(x) => MultiWiiSettingsCode(x)
    case MultiWiiStorage(x) => MultiWiiStorageCode(x)
    case Baseflight(x) => BaseflightCode(x)
    case Betaflight(x) => BetaflightCode(x)
    case Inav(x) => InavCode(x)
  }

  /** The code of a command of section `Common`. */
  function CommonCode(x: CommonCommand): u16
  {
    match x
    case MSP_API_VERSION => 1
    case MSP_FC_VARIANT => 2
    case MSP_FC_VERSION => 3
    case MSP_BOARD_INFO => 4
    case MSP_BUILD_INFO => 5
  }

  /** The code of a command of section `CleanflightSetup`. */
  function CleanflightSetupCode(x: CleanflightSetupCommand): u16
  {
    match x
    case MSP_BATTERY_CONFIG => 32
    case MSP_SET_BATTERY_CONFIG => 33
    case MSP_MODE_RANGES => 34
    case MSP_SET_MODE_RANGE => 35
    case MSP_FEATURE => 36
    case MSP_SET_FEATURE => 37
    case MSP_BOARD_ALIGNMENT => 38
    case MSP_SET_BOARD_ALIGNMENT => 39
    case MSP_AMPERAGE_METER_CONFIG => 40
    case MSP_SET_AMPERAGE_METER_CONFIG => 41
    case MSP_MIXER => 42
    case MSP_SET_MIXER => 43
    case MSP_RX_CONFIG => 44
    case MSP_SET_RX_CONFIG => 45
    case MSP_LED_COLORS => 46
    case MSP_SET_LED_COLORS => 47
  }

  /** The code of a command of section `CleanflightTuning`. */
  function CleanflightTuningCode(x: CleanflightTuningCommand): u16
  {
    match x
    case MSP_LED_STRIP_CONFIG => 48
    case MSP_SET_LED_STRIP_CONFIG => 49
    case MSP_RSSI_CONFIG => 50
    case MSP_SET_RSSI_CONFIG => 51
    case MSP_ADJUSTMENT_RANGES => 52
    case MSP_SET_ADJUSTMENT_RANGE => 53
    case MSP_CF_SERIAL_CONFIG => 54
    case MSP_SET_CF_SERIAL_CONFIG => 55
    case MSP_VOLTAGE_METER_CONFIG => 56
    case MSP_SET_VOLTAGE_METER_CONFIG => 57
    case MSP_SONAR => 58
    case MSP_PID_CONTROLLER => 59
    case MSP_SET_PID_CONTROLLER => 60
    case MSP_ARMING_CONFIG => 61
    case MSP_SET_ARMING_CONFIG => 62
  }

  /** The code of a command of section `CleanflightLogging`. */
  function CleanflightLoggingCode(x: CleanflightLoggingCommand): u16
  {
    match x
    case MSP_DATAFLASH_SUMMARY => 70
    case MSP_DATAFLASH_READ => 71
    case MSP_DATAFLASH_ERASE => 72
    case MSP_LOOP_TIME => 73
    case MSP_SET_LOOP_TIME => 74
    case MSP_FAILSAFE_CONFIG => 75
    case MSP_SET_FAILSAFE_CONFIG => 76
    case MSP_RXFAIL_CONFIG => 77
    case MSP_SET_RXFAIL_CONFIG => 78
    case MSP_SDCARD_SUMMARY => 79
    case MSP_BLACKBOX_CONFIG => 80
    case MSP_SET_BLACKBOX_CONFIG => 81
    case MSP_TRANSPONDER_CONFIG => 82
    case MSP_SET_TRANSPONDER_CONFIG => 83
  }

  /** The code of a command of section `CleanflightDevices`. */
  function CleanflightDevicesCode(x: CleanflightDevicesCommand): u16
  {
    match x
    case MSP_OSD_CONFIG => 84
    case MSP_SET_OSD_CONFIG => 85
    case MSP_OSD_CHAR_READ => 86
    case MSP_OSD_CHAR_WRITE => 87
    case MSP_LED_STRIP_MODECOLOR => 127
    case MSP_SET_LED_STRIP_MODECOLOR => 221
    case MSP_VOLTAGE_METERS => 128
    case MSP_AMPERAGE_METERS => 129
    case MSP_BATTERY_STATE => 130
    case MSP_MOTOR_CONFIG => 131
  }

  /** The code of a command of section `Osd`. */
  function OsdCode(x: OsdCommand): u16
  {
    match x
    case MSP_OSD_VIDEO_CONFIG => 180
    case MSP_SET_OSD_VIDEO_CONFIG => 181
    case MSP_OSD_VIDEO_STATUS => 182
    case MSP_OSD_ELEMENT_SUMMARY => 183
    case MSP_OSD_LAYOUT_CONFIG => 184
    case MSP_SET_OSD_LAYOUT_CONFIG => 185
  }

  /** The code of a command of section `MultiWiiQueries`. */
  function MultiWiiQueriesCode(x: MultiWiiQueriesCommand): u16
  {
    match x
    case MSP_IDENT => 100
    case MSP_STATUS => 101
    case MSP_RAW_IMU => 102
    case MSP_SERVO => 103
    case MSP_MOTOR => 104
    case MSP_RC => 105
    case MSP_RAW_GPS => 106
    case MSP_COMP_GPS => 107
    case MSP_ATTITUDE => 108
    case MSP_ALTITUDE => 109
    case MSP_ANALOG => 110
    case MSP_RC_TUNING => 111
    case MSP_PID => 112
    case MSP_BOX => 113
    case MSP_MISC => 114
    case MSP_MOTOR_PINS => 115
    case MSP_BOXNAMES => 116
    case MSP_PIDNAMES => 117
    case MSP_WP => 118
    case MSP_BOXIDS => 119
    case MSP_SERVO_CONFIGURATIONS => 120
    case MSP_MOTOR_3D_CONFIG => 124
    case MSP_RC_DEADBAND => 125
    case MSP_SENSOR_ALIGNMENT => 126
  }

  /** The code of a command of section `MultiWiiSettings`. */
  function MultiWiiSettingsCode(x: MultiWiiSettingsCommand): u16
  {
    match x
    case MSP_SET_RAW_RC => 200
    case MSP_SET_RAW_GPS => 201
    case MSP_SET_PID => 202
    case MSP_SET_BOX => 203
    case MSP_SET_RC_TUNING => 204
    case MSP_ACC_CALIBRATION => 205
    case MSP_MAG_CALIBRATION => 206
    case MSP_SET_MISC => 207
    case MSP_RESET_CONF => 208
    case MSP_SET_WP => 209
    case MSP_SELECT_SETTING => 210
    case MSP_SET_HEAD => 211
    case MSP_SET_SERVO_CONFIGURATION => 212
    case MSP_SET_MOTOR => 214
    case MSP_SET_3D => 217
    case MSP_SET_RC_DEADBAND => 218
    case MSP_SET_RESET_CURR_PID => 219
    case MSP_SET_SENSOR_ALIGNMENT => 220
  }

  /** The code of a command of section `MultiWiiStorage`. */
  function MultiWiiStorageCode(x: MultiWiiStorageCommand): u16
  {
    match x
    case MSP_SERVO_MIX_RULES => 241
    case MSP_SET_SERVO_MIX_RULE => 242
    case MSP_EEPROM_WRITE => 250
    case MSP_DEBUGMSG => 253
    case MSP_DEBUG => 254
    case MSP_BF_CONFIG => 66
  }

  /** The code of a command of section `Baseflight`. */
  function BaseflightCode(x: BaseflightCommand): u16
  {
    match x
    case MSP_UID => 160
    case MSP_STATUS_EX => 150
    case MSP_ACC_TRIM => 240
    case MSP_SET_ACC_TRIM => 239
    case MSP_GPS_SV_INFO => 164
    case MSP_RX_MAP => 64
    case MSP_SET_RX_MAP => 65
    case MSP_SET_REBOOT => 68
    case MSP_BF_BUILD_INFO => 69
  }

  /** The code of a command of section `Betaflight`. */
  function BetaflightCode(x: BetaflightCommand): u16
  {
    match x
    case MSP_ADVANCED_CONFIG => 90
    case MSP_SET_ADVANCED_CONFIG => 91
    case MSP_FILTER_CONFIG => 92
    case MSP_SET_FILTER_CONFIG => 93
    case MSP_PID_ADVANCED => 94
    case MSP_SET_PID_ADVANCED => 95
    case MSP_SENSOR_CONFIG => 96
    case MSP_SET_SENSOR_CONFIG => 97
  }

  /** The code of a command of section `Inav`. */
  function InavCode(x: InavCommand): u16
  {
    match x
    case MSP2_COMMON_SETTING => 0x1003
    case MSP2_COMMON_SET_SETTING => 0x1004
    case MSP2_MOTOR_MIXER => 0x1005
    case MSP2_SET_MOTOR_MIXER => 0x1006
    case MSP2_COMMON_SETTING_INFO => 0x1007
    case MSP2_COMMON_PG_LIST => 0x1008
    case MSP2_SERIAL_CONFIG => 0x1009
    case MSP2_SET_SERIAL_CONFIG => 0x100A
    case MSP2_INAV_OSD_LAYOUTS => 0x2012
    case MSP2_INAV_OSD_SET_LAYOUT_ITEM => 0x2013
    case MSP2_INAV_OSD_ALARMS => 0x2014
    case MSP2_INAV_OSD_SET_ALARMS => 0x2015
    case MSP2_INAV_OSD_PREFERENCES => 0x2016
    case MSP2_INAV_OSD_SET_PREFERENCES => 0x2017
    case MSP2_INAV_SERVO_MIXER => 0x2020
    case MSP2_INAV_SET_SERVO_MIXER => 0x2021
  }

  /** The command carrying code `v`, if any.  The search is split by code
      range; within a range, the sections holding codes of that range are
      searched in turn. */
  function FromPrimitive(v: u16): (r: Option<MspCommandCode>)
    ensures r.Some? ==> Code(r.value) == v
  {
    if v < 32 then
      if LookupCommon(v).Some? then Some(Common(LookupCommon(v).value))
      else None
    else if v < 64 then
      if LookupCleanflightSetup(v).Some? then Some(CleanflightSetup(LookupCleanflightSetup(v).value))
      else if LookupCleanflightTuning(v).Some? then Some(CleanflightTuning(LookupCleanflightTuning(v).value))
      else None
    else if v < 100 then
      if LookupCleanflightLogging(v).Some? then Some(CleanflightLogging(LookupCleanflightLogging(v).value))
      else if LookupCleanflightDevices(v).Some? then Some(CleanflightDevices(LookupCleanflightDevices(v).value))
      else if LookupMultiWiiStorage(v).Some? then Some(MultiWiiStorage(LookupMultiWiiStorage(v).value))
      else if LookupBaseflight(v).Some? then Some(Baseflight(LookupBaseflight(v).value))
      else if LookupBetaflight(v).Some? then Some(Betaflight(LookupBetaflight(v).value))
      else None
    else if v < 128 then
      if LookupCleanflightDevices(v).Some? then Some(CleanflightDevices(LookupCleanflightDevices(v).value))
      else if LookupMultiWiiQueries(v).Some? then Some(MultiWiiQueries(LookupMultiWiiQueries(v).value))
      else None
    else if v < 200 then
      if LookupCleanflightDevices(v).Some? then Some(CleanflightDevices(LookupCleanflightDevices(v).value))
      else if LookupOsd(v).Some? then Some(Osd(LookupOsd(v).value))
      else if LookupBaseflight(v).Some? then Some(Baseflight(LookupBaseflight(v).value))
      else None
    else if v < 256 then
      if LookupCleanflightDevices(v).Some? then Some(CleanflightDevices(LookupCleanflightDevices(v).value))
      else if LookupMultiWiiSettings(v).Some? then Some(MultiWiiSettings(LookupMultiWiiSettings(v).value))
      else if LookupMultiWiiStorage(v).Some? then Some(MultiWiiStorage(LookupMultiWiiStorage(v).value))
      else if LookupBaseflight(v).Some? then Some(Baseflight(LookupBaseflight(v).value))
      else None
    else
      if LookupInav(v).Some? then Some(Inav(LookupInav(v).value))
      else None
  }

  /** The command of section `Common` carrying code `v`, if any. */
  function LookupCommon(v: u16): (r: Option<CommonCommand>)
    ensures r.Some? ==> CommonCode(r.value) == v
  {
    match v
    case 1 => Some(MSP_API_VERSION)
    case 2 => Some(MSP_FC_VARIANT)
    case 3 => Some(MSP_FC_VERSION)
    case 4 => Some(MSP_BOARD_INFO)
    case 5 => Some(MSP_BUILD_INFO)
    case _ => None
  }

  /** The command of section `CleanflightSetup` carrying code `v`, if any. */
  function LookupCleanflightSetup(v: u16): (r: Option<CleanflightSetupCommand>)
    ensures r.Some? ==> CleanflightSetupCode(r.value) == v
  {
    match v
    case 32 => Some(MSP_BATTERY_CONFIG)
    case 33 => Some(MSP_SET_BATTERY_CONFIG)
    case 34 => Some(MSP_MODE_RANGES)
    case 35 => Some(MSP_SET_MODE_RANGE)
    case 36 => Some(MSP_FEATURE)
    case 37 => Some(MSP_SET_FEATURE)
    case 38 => Some(MSP_BOARD_ALIGNMENT)
    case 39 => Some(MSP_SET_BOARD_ALIGNMENT)
    case 40 => Some(MSP_AMPERAGE_METER_CONFIG)
    case 41 => Some(MSP_SET_AMPERAGE_METER_CONFIG)
    case 42 => Some(MSP_MIXER)
    case 43 => Some(MSP_SET_MIXER)
    case 44 => Some(MSP_RX_CONFIG)
    case 45 => Some(MSP_SET_RX_CONFIG)
    case 46 => Some(MSP_LED_COLORS)
    case 47 => Some(MSP_SET_LED_COLORS)
    case _ => None
  }

  /** The command of section `CleanflightTuning` carrying code `v`, if any. */
  function LookupCleanflightTuning(v: u16): (r: Option<CleanflightTuningCommand>)
    ensures r.Some? ==> CleanflightTuningCode(r.value) == v
  {
    match v
    case 48 => Some(MSP_LED_STRIP_CONFIG)
    case 49 => Some(MSP_SET_LED_STRIP_CONFIG)
    case 50 => Some(MSP_RSSI_CONFIG)
    case 51 => Some(MSP_SET_RSSI_CONFIG)
    case 52 => Some(MSP_ADJUSTMENT_RANGES)
    case 53 => Some(MSP_SET_ADJUSTMENT_RANGE)
    case 54 => Some(MSP_CF_SERIAL_CONFIG)
    case 55 => Some(MSP_SET_CF_SERIAL_CONFIG)
    case 56 => Some(MSP_VOLTAGE_METER_CONFIG)
    case 57 => Some(MSP_SET_VOLTAGE_METER_CONFIG)
    case 58 => Some(MSP_SONAR)
    case 59 => Some(MSP_PID_CONTROLLER)
    case 60 => Some(MSP_SET_PID_CONTROLLER)
    case 61 => Some(MSP_ARMING_CONFIG)
    case 62 => Some(MSP_SET_ARMING_CONFIG)
    case _ => None
  }

  /** The command of section `CleanflightLogging` carrying code `v`, if any. */
  function LookupCleanflightLogging(v: u16): (r: Option<CleanflightLoggingCommand>)
    ensures r.Some? ==> CleanflightLoggingCode(r.value) == v
  {
    match v
    case 70 => Some(MSP_DATAFLASH_SUMMARY)
    case 71 => Some(MSP_DATAFLASH_READ)
    case 72 => Some(MSP_DATAFLASH_ERASE)
    case 73 => Some(MSP_LOOP_TIME)
    case 74 => Some(MSP_SET_LOOP_TIME)
    case 75 => Some(MSP_FAILSAFE_CONFIG)
    case 76 => Some(MSP_SET_FAILSAFE_CONFIG)
    case 77 => Some(MSP_RXFAIL_CONFIG)
    case 78 => Some(MSP_SET_RXFAIL_CONFIG)
    case 79 => Some(MSP_SDCARD_SUMMARY)
    case 80 => Some(MSP_BLACKBOX_CONFIG)
    case 81 => Some(MSP_SET_BLACKBOX_CONFIG)
    case 82 => Some(MSP_TRANSPONDER_CONFIG)
    case 83 => Some(MSP_SET_TRANSPONDER_CONFIG)
    case _ => None
  }

  /** The command of section `CleanflightDevices` carrying code `v`, if any. */
  function LookupCleanflightDevices(v: u16): (r: Option<CleanflightDevicesCommand>)
    ensures r.Some? ==> CleanflightDevicesCode(r.value) == v
  {
    match v
    case 84 => Some(MSP_OSD_CONFIG)
    case 85 => Some(MSP_SET_OSD_CONFIG)
    case 86 => Some(MSP_OSD_CHAR_READ)
    case 87 => Some(MSP_OSD_CHAR_WRITE)
    case 127 => Some(MSP_LED_STRIP_MODECOLOR)
    case 128 => Some(MSP_VOLTAGE_METERS)
    case 129 => Some(MSP_AMPERAGE_METERS)
    case 130 => Some(MSP_BATTERY_STATE)
    case 131 => Some(MSP_MOTOR_CONFIG)
    case 221 => Some(MSP_SET_LED_STRIP_MODECOLOR)
    case _ => None
  }

  /** The command of section `Osd` carrying code `v`, if any. */
  function LookupOsd(v: u16): (r: Option<OsdCommand>)
    ensures r.Some? ==> OsdCode(r.value) == v
  {
    match v
    case 180 => Some(MSP_OSD_VIDEO_CONFIG)
    case 181 => Some(MSP_SET_OSD_VIDEO_CONFIG)
    case 182 => Some(MSP_OSD_VIDEO_STATUS)
    case 183 => Some(MSP_OSD_ELEMENT_SUMMARY)
    case 184 => Some(MSP_OSD_LAYOUT_CONFIG)
    case 185 => Some(MSP_SET_OSD_LAYOUT_CONFIG)
    case _ => None
  }

  /** The command of section `MultiWiiQueries` carrying code `v`, if any. */
  function LookupMultiWiiQueries(v: u16): (r: Option<MultiWiiQueriesCommand>)
    ensures r.Some? ==> MultiWiiQueriesCode(r.value) == v
  {
    match v
    case 100 => Some(MSP_IDENT)
    case 101 => Some(MSP_STATUS)
    case 102 => Some(MSP_RAW_IMU)
    case 103 => Some(MSP_SERVO)
    case 104 => Some(MSP_MOTOR)
    case 105 => Some(MSP_RC)
    case 106 => Some(MSP_RAW_GPS)
    case 107 => Some(MSP_COMP_GPS)
    case 108 => Some(MSP_ATTITUDE)
    case 109 => Some(MSP_ALTITUDE)
    case 110 => Some(MSP_ANALOG)
    case 111 => Some(MSP_RC_TUNING)
    case 112 => Some(MSP_PID)
    case 113 => Some(MSP_BOX)
    case 114 => Some(MSP_MISC)
    case 115 => Some(MSP_MOTOR_PINS)
    case 116 => Some(MSP_BOXNAMES)
    case 117 => Some(MSP_PIDNAMES)
    case 118 => Some(MSP_WP)
    case 119 => Some(MSP_BOXIDS)
    case 120 => Some(MSP_SERVO_CONFIGURATIONS)
    case 124 => Some(MSP_MOTOR_3D_CONFIG)
    case 125 => Some(MSP_RC_DEADBAND)
    case 126 => Some(MSP_SENSOR_ALIGNMENT)
    case _ => None
  }

  /** The command of section `MultiWiiSettings` carrying code `v`, if any. */
  function LookupMultiWiiSettings(v: u16): (r: Option<MultiWiiSettingsCommand>)
    ensures r.Some? ==> MultiWiiSettingsCode(r.value) == v
  {
    match v
    case 200 => Some(MSP_SET_RAW_RC)
    case 201 => Some(MSP_SET_RAW_GPS)
    case 202 => Some(MSP_SET_PID)
    case 203 => Some(MSP_SET_BOX)
    case 204 => Some(MSP_SET_RC_TUNING)
    case 205 => Some(MSP_ACC_CALIBRATION)
    case 206 => Some(MSP_MAG_CALIBRATION)
    case 207 => Some(MSP_SET_MISC)
    case 208 => Some(MSP_RESET_CONF)
    case 209 => Some(MSP_SET_WP)
    case 210 => Some(MSP_SELECT_SETTING)
    case 211 => Some(MSP_SET_HEAD)
    case 212 => Some(MSP_SET_SERVO_CONFIGURATION)
    case 214 => Some(MSP_SET_MOTOR)
    case 217 => Some(MSP_SET_3D)
    case 218 => Some(MSP_SET_RC_DEADBAND)
    case 219 => Some(MSP_SET_RESET_CURR_PID)
    case 220 => Some(MSP_SET_SENSOR_ALIGNMENT)
    case _ => None
  }

  /** The command of section `MultiWiiStorage` carrying code `v`, if any. */
  function LookupMultiWiiStorage(v: u16): (r: Option<MultiWiiStorageCommand>)
    ensures r.Some? ==> MultiWiiStorageCode(r.value) == v
  {
    match v
    case 66 => Some(MSP_BF_CONFIG)
    case 241 => Some(MSP_SERVO_MIX_RULES)
    case 242 => Some(MSP_SET_SERVO_MIX_RULE)
    case 250 => Some(MSP_EEPROM_WRITE)
    case 253 => Some(MSP_DEBUGMSG)
    case 254 => Some(MSP_DEBUG)
    case _ => None
  }

  /** The command of section `Baseflight` carrying code `v`, if any. */
  function LookupBaseflight(v: u16): (r: Option<BaseflightCommand>)
    ensures r.Some? ==> BaseflightCode(r.value) == v
  {
    match v
    case 64 => Some(MSP_RX_MAP)
    case 65 => Some(MSP_SET_RX_MAP)
    case 68 => Some(MSP_SET_REBOOT)
    case 69 => Some(MSP_BF_BUILD_INFO)
    case 150 => Some(MSP_STATUS_EX)
    case 160 => Some(MSP_UID)
    case 164 => Some(MSP_GPS_SV_INFO)
    case 239 => Some(MSP_SET_ACC_TRIM)
    case 240 => Some(MSP_ACC_TRIM)
    case _ => None
  }

  /** The command of section `Betaflight` carrying code `v`, if any. */
  function LookupBetaflight(v: u16): (r: Option<BetaflightCommand>)
    ensures r.Some? ==> BetaflightCode(r.value) == v
  {
    match v
    case 90 => Some(MSP_ADVANCED_CONFIG)
    case 91 => Some(MSP_SET_ADVANCED_CONFIG)
    case 92 => Some(MSP_FILTER_CONFIG)
    case 93 => Some(MSP_SET_FILTER_CONFIG)
    case 94 => Some(MSP_PID_ADVANCED)
    case 95 => Some(MSP_SET_PID_ADVANCED)
    case 96 => Some(MSP_SENSOR_CONFIG)
    case 97 => Some(MSP_SET_SENSOR_CONFIG)
    case _ => None
  }

  /** The command of section `Inav` carrying code `v`, if any. */
  function LookupInav(v: u16): (r: Option<InavCommand>)
    ensures r.Some? ==> InavCode(r.value) == v
  {
    match v
    case 0x1003 => Some(MSP2_COMMON_SETTING)
    case 0x1004 => Some(MSP2_COMMON_SET_SETTING)
    case 0x1005 => Some(MSP2_MOTOR_MIXER)
    case 0x1006 => Some(MSP2_SET_MOTOR_MIXER)
    case 0x1007 => Some(MSP2_COMMON_SETTING_INFO)
    case 0x1008 => Some(MSP2_COMMON_PG_LIST)
    case 0x1009 => Some(MSP2_SERIAL_CONFIG)
    case 0x100A => Some(MSP2_SET_SERIAL_CONFIG)
    case 0x2012 => Some(MSP2_INAV_OSD_LAYOUTS)
    case 0x2013 => Some(MSP2_INAV_OSD_SET_LAYOUT_ITEM)
    case 0x2014 => Some(MSP2_INAV_OSD_ALARMS)
    case 0x2015 => Some(MSP2_INAV_OSD_SET_ALARMS)
    case 0x2016 => Some(MSP2_INAV_OSD_PREFERENCES)
    case 0x2017 => Some(MSP2_INAV_OSD_SET_PREFERENCES)
    case 0x2020 => Some(MSP2_INAV_SERVO_MIXER)
    case 0x2021 => Some(MSP2_INAV_SET_SERVO_MIXER)
    case _ => None
  }

  /** `LeftInverse` for the commands of section `Common`. */
  lemma LeftInverseCommon(x: CommonCommand)
    ensures FromPrimitive(CommonCode(x)) == Some(Common(x))
  {
  }

  /** `LeftInverse` for the commands of section `CleanflightSetup`. */
  lemma LeftInverseCleanflightSetup(x: CleanflightSetupCommand)
    ensures FromPrimitive(CleanflightSetupCode(x)) == Some(CleanflightSetup(x))
  {
  }

  /** `LeftInverse` for the commands of section `CleanflightTuning`. */
  lemma LeftInverseCleanflightTuning(x: CleanflightTuningCommand)
    ensures FromPrimitive(CleanflightTuningCode(x)) == Some(CleanflightTuning(x))
  {
  }

  /** `LeftInverse` for the commands of section `CleanflightLogging`. */
  lemma LeftInverseCleanflightLogging(x: CleanflightLoggingCommand)
    ensures FromPrimitive(CleanflightLoggingCode(x)) == Some(CleanflightLogging(x))
  {
  }

  /** `LeftInverse` for the commands of section `CleanflightDevices`. */
  lemma LeftInverseCleanflightDevices(x: CleanflightDevicesCommand)
    ensures FromPrimitive(CleanflightDevicesCode(x)) == Some(CleanflightDevices(x))
  {
  }

  /** `LeftInverse` for the commands of section `Osd`. */
  lemma LeftInverseOsd(x: OsdCommand)
    ensures FromPrimitive(OsdCode(x)) == Some(Osd(x))
  {
  }

  /** `LeftInverse` for the commands of section `MultiWiiQueries`. */
  lemma LeftInverseMultiWiiQueries(x: MultiWiiQueriesCommand)
    ensures FromPrimitive(MultiWiiQueriesCode(x)) == Some(MultiWiiQueries(x))
  {
  }

  /** `LeftInverse` for the commands of section `MultiWiiSettings`. */
  lemma LeftInverseMultiWiiSettings(x: MultiWiiSettingsCommand)
    ensures FromPrimitive(MultiWiiSettingsCode(x)) == Some(MultiWiiSettings(x))
  {
  }

  /** `LeftInverse` for the commands of section `MultiWiiStorage`. */
  lemma LeftInverseMultiWiiStorage(x: MultiWiiStorageCommand)
    ensures FromPrimitive(MultiWiiStorageCode(x)) == Some(MultiWiiStorage(x))
  {
  }

  /** `LeftInverse` for the commands of section `Baseflight`. */
  lemma LeftInverseBaseflight(x: BaseflightCommand)
    ensures FromPrimitive(BaseflightCode(x)) == Some(Baseflight(x))
  {
  }

  /** `LeftInverse` for the commands of section `Betaflight`. */
  lemma LeftInverseBetaflight(x: BetaflightCommand)
    ensures FromPrimitive(BetaflightCode(x)) == Some(Betaflight(x))
  {
  }

  /** `LeftInverse` for the commands of section `Inav`. */
  lemma LeftInverseInav(x: InavCommand)
    ensures FromPrimitive(InavCode(x)) == Some(Inav(x))
  {
  }

  /** Looking up the code of any command gives that command back. */
  lemma LeftInverse(c: MspCommandCode)
    ensures FromPrimitive(Code(c)) == Some(c)
  {
    match c
    case Common(x) => LeftInverseCommon(x);
    case CleanflightSetup(x) => LeftInverseCleanflightSetup(x);
    case CleanflightTuning(x) => LeftInverseCleanflightTuning(x);
    case CleanflightLogging(x) => LeftInverseCleanflightLogging(x);
    case CleanflightDevices(x) => LeftInverseCleanflightDevices(x);
    case Osd(x) => LeftInverseOsd(x);
    case MultiWiiQueries(x) => LeftInverseMultiWiiQueries(x);
    case MultiWiiSettings(x) => LeftInverseMultiWiiSettings(x);
    case MultiWiiStorage(x) => LeftInverseMultiWiiStorage(x);
    case Baseflight(x) => LeftInverseBaseflight(x);
    case Betaflight(x) => LeftInverseBetaflight(x);
    case Inav(x) => LeftInverseInav(x);
  }

  /** Every command carries a code of its own. */
  lemma CodeInjective(a: MspCommandCode, b: MspCommandCode)
    ensures Code(a) == Code(b) <==> a == b
  {
    LeftInverse(a);
    LeftInverse(b);
  }

  /** The lookup finds nothing exactly for the codes no command carries. */
  lemma FromPrimitiveNone(v: u16)
    ensures FromPrimitive(v).None? <==> forall c: MspCommandCode :: Code(c) != v
  {
    if c: MspCommandCode :| Code(c) == v {
      LeftInverse(c);
    }
  }

  /** `From<u16>`: the command carrying `v`.  The source panics on a code
      that no command carries; here this is the precondition. */
  function From(v: u16): (c: MspCommandCode)
    requires FromPrimitive(v).Some?
    ensures Code(c) == v
  {
    FromPrimitive(v).value
  }

  /** The codes above 255 are exactly those of the MSP2 commands of section
      `Inav`, which lie between 0x1003 and 0x2021. */
  lemma Msp2CodesAboveByte(c: MspCommandCode)
    ensures Code(c) > 0xFF <==> c.Inav?
    ensures c.Inav? ==> 0x1003 <= Code(c) <= 0x2021
  {
  }

  /** A V1 frame carries only the low byte of a command code, and that byte
      never looks up an MSP2 command. */
  lemma Msp2NotCarriedByV1(c: MspCommandCode)
    requires c.Inav?
    ensures FromPrimitive(LowByte(Code(c)) as u16) != Some(c)
  {
    Msp2CodesAboveByte(c);
  }

  /** For instance, the V1 frame of MSP2_COMMON_SETTING (0x1003) carries
      the code of MSP_FC_VERSION (3). */
  lemma CommonSettingInV1IsFcVersion()
    ensures FromPrimitive(LowByte(Code(Inav(MSP2_COMMON_SETTING))) as u16) == Some(Common(MSP_FC_VERSION))
  {
  }
}
