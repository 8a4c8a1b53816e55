/** The telemetry event both engines move around.  Only the fields the pipelines look at are kept;
    an empty string stands for a missing field. */
module Events {
  datatype TelemetryEvent = TelemetryEvent(
    traceId: string, service: string, message: string, timestamp: string, level: string)
}
