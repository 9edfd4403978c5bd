/** The exception classes the core raises, catches or lets through, and the error
    categories that reach the error sink. */
module Errors {

  /** Python exception classes, by the role they play in the pipeline. */
  datatype Kind =
    | InvalidMessageError   // malformed command, failed encoding
    | UnknownCommandError   // no coil or register matches the action name
    | ModbusClientError     // wraps a transport exception or an error response
    | ModbusException       // raised by the Modbus transport itself
    | AttributeError
    | RuntimeError
    | StructError           // struct.error from packing a value
    | KeyError
    | TypeError
    | IndexError
    | OverflowError
    | ConfigurationFileInvalidError  // a configuration that fails validation
    | OtherError            // anything else, e.g. raised inside a callback

  /** A raised exception: its class and `str(ex)`. */
  datatype PyError = PyError(kind: Kind, text: string)

  /** Categories of the error-report channel. */
  datatype Category =
    | ModbusError
    | MqttError
    | InvalidMessage
    | UnknownCommand
    | RuntimeErrorCategory
    | Unhandled

  /** One entry appended to the error sink. */
  datatype Report = Report(category: Category, message: string)
}
