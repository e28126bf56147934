/**
 * MonitoringService: dashboard and alert wiring is not implemented; both
 * entry points only log, so as steps they change nothing and never fail.
 */
module Monitoring {
  import opened Crd

  method SetupMonitoring(app: App) returns (ok: bool)
    ensures ok
  {
    ok := true;
  }

  method DeleteMonitoring(app: App) returns (ok: bool)
    ensures ok
  {
    ok := true;
  }
}
