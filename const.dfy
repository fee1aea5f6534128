/** Constants of the integration (custom_components/ezviz_cloud/const.py).
    Durations that the source writes in seconds are kept in seconds here when
    they are timeouts handed to the HTTP layer, and turned into milliseconds
    where the model logs a wait. */
module Const {

  /** DEFAULT_UPDATE_INTERVAL, in seconds. */
  const DefaultUpdateInterval: int := 20

  /** API_TIMEOUT, in seconds: the request timeout for ordinary calls. */
  const ApiTimeout: int := 8

  /** API_RETRY_ATTEMPTS: the retry counter of a request may not pass it. */
  const ApiRetryAttempts: nat := 2

  /** HOMEKIT_COMMAND_TIMEOUT, in seconds: the timeout of privacy get/set calls. */
  const HomekitCommandTimeout: int := 5

  /** PRIVACY_ON = "on" and PRIVACY_OFF = "off", the two strings the device
      cache stores as a device's privacy status; the model keeps them as the
      two values of this type. */
  datatype Privacy = On | Off
}
