/** `connect_hardware`, written the same way in each calibration tool: the
    printer first, then the camera, each failure raised as an exception. */
module Hardware {
  import opened Wrappers
  import opened Faults
  import opened PrinterInterface
  import opened CameraInterface

  /** What the environment answers at connect time: the serial port found by
      discovery, whether it and the capture device open, and the frame size
      the device reports. */
  datatype Wiring = Wiring(discovered: Option<string>, printerOpens: bool, cameraOpens: bool, width: int, height: int)

  /** Succeeds exactly when a port is found and both devices open; the camera
      is not touched once the printer has failed. */
  method ConnectHardware(printer: Printer, camera: Camera, w: Wiring) returns (r: Outcome<Fault>)
    modifies printer`connected, camera`hasCapture, camera`isConnected, camera`frameWidth, camera`frameHeight
    ensures r.Pass? <==> w.discovered.Some? && w.printerOpens && w.cameraOpens
    ensures w.discovered.None? ==> r == Fail(NoPrinterFound)
    ensures w.discovered.Some? && !w.printerOpens ==> r == Fail(PrinterConnectFailed)
    ensures w.discovered.Some? && w.printerOpens && !w.cameraOpens ==> r == Fail(CameraConnectFailed)
    ensures r.Pass? ==> printer.connected && camera.isConnected && camera.hasCapture
    ensures r.Pass? ==> camera.frameWidth == Some(w.width) && camera.frameHeight == Some(w.height)
    ensures !(w.discovered.Some? && w.printerOpens) ==> unchanged(camera)
  {
    var link := printer.Connect(None, w.discovered, w.printerOpens);
    if link.Err? {
      return Fail(link.error);
    }
    if !link.value {
      return Fail(PrinterConnectFailed);
    }
    var ok := camera.Connect(w.cameraOpens, w.width, w.height);
    if !ok {
      return Fail(CameraConnectFailed);
    }
    return Pass;
  }
}
