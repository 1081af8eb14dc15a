/** The alert data that flows from the webhook to the storage backends. */
module Alerts {
  import opened Basics

  type Labels = map<string, string>

  datatype Alert = Alert(
    status: string,
    labels: Labels,
    annotations: Labels,
    startsAt: int,
    endsAt: int,
    generatorURL: string,
    fingerprint: string)

  datatype AlertGroup = AlertGroup(
    version: string,
    groupKey: string,
    receiver: string,
    status: string,
    alerts: seq<Alert>,
    groupLabels: Labels,
    commonLabels: Labels,
    commonAnnotations: Labels,
    externalURL: string)

  /** Nanoseconds since the Unix epoch; None is Go's zero time. */
  type Instant = Option<int>

  /** One durably logged alert group (`walRecord`). */
  datatype Record = Record(seqNo: u64, group: AlertGroup, extraLabels: Labels, receivedAt: Instant)
}
