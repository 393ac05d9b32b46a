/**
 * The constants of custom_components/galcon_bt/const.py, with their exact values.
 * Delays and timeouts, which are floating-point seconds in the integration, are
 * given here in whole milliseconds (every one of them is a whole number of ms).
 */
module Consts {

  /** An element of a Python `bytes` value. */
  type Byte = b: int | 0 <= b < 256

  type Bytes = seq<Byte>

  // Config keys
  const CONF_ADDRESS: string := "address"

  const DEFAULT_NAME: string := "Galcon Irrigation"
  const DEFAULT_SCAN_INTERVAL: nat := 300      // seconds
  const DEFAULT_DURATION: nat := 20            // minutes

  /** The Galcon 9001BT advertises with a name containing this. */
  const DEVICE_NAME_FILTER: string := "GL9001A"

  // Connection
  const MAX_RETRIES: nat := 3
  const COMMAND_VERIFY_ATTEMPTS: nat := 3
  const WAKE_SETTLE_DELAY_MS: nat := 1000
  const POST_COMMAND_DELAY_MS: nat := 1500

  /** Availability is lost only after this many back-to-back poll failures. */
  const MAX_CONSECUTIVE_FAILURES: nat := 5

  // Control payloads
  const CMD_CLOSE_VALVE: Bytes := [0x01, 0x00, 0x00, 0x00, 0x00, 0x00, 0x00]
  const CMD_OPEN_VALVE: Bytes := [0x00, 0x01, 0x00, 0x00, 0x00, 0x00, 0x00]
  const WAKE_PAYLOAD: Bytes := [0x01, 0x02]

  // Status byte masks
  const STATUS_VALVE_OPEN_MASK: nat := 0x01     // byte 0
  const STATUS_MANUAL_OPEN_MASK: nat := 0x01    // byte 1
}
