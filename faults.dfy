/** The exceptions the hardware layer and the planners raise, as values. */
module Faults {

  datatype Fault =
    | NoPrinterFound          // no serial port answered during discovery
    | PrinterNotConnected     // send_command without an open serial link
    | PrinterError(reply: string)  // a reply line containing "error"
    | PrinterTimeout          // no classified reply before the timeout
    | PrinterConnectFailed    // connect_hardware: the serial port would not open
    | CameraConnectFailed     // connect_hardware: the capture device would not open
    | CameraNotConnected      // capture or sweep before a successful connect
    | CaptureFailed           // the capture device returned no frame
    | SlideNotCalibrated      // no saved slide position to load
    | FocusNotCalibrated      // no saved focus calibration to load
    | Overflow                // Python's OverflowError: int() of an infinite float
    | NotANumber              // Python's ValueError: int() of a NaN
    | EmptySequence           // max() or argmax() of an empty sequence
    | TypeMismatch            // Python's TypeError: arithmetic on a missing (None) value
    | IndexError              // Python's IndexError: a list index outside the list
}
