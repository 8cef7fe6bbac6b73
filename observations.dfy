/**
 * What a metrics pull callback hands to the exporter: a value together with its
 * set of labels, and the label set that every observation of this host carries.
 */
module Observations {
  /** The host identity stamped on every observation, span and log record. */
  const Hostname: string := "host1"

  datatype Observation<V> = Observation(value: V, attributes: map<string, string>)

  /** The label set `{"hostname": "host1"}` of the three host-wide instruments. */
  function HostLabels(): map<string, string>
  {
    map["hostname" := Hostname]
  }
}
