/**
 * RemotePortYML: the settings of one port of a remote process group, with
 * the task count and compression flag left out when they hold NiFi's
 * defaults (one task, no compression) and the batch settings copied as
 * they are.
 */
module RemotePortYml {
  import opened Wrappers
  import opened HelperYml
  import opened Records

  /** The capture of one remote port of the given kind. */
  function RemotePortOf(port: RemotePortDto, kind: ReservedKind): (r: RemotePort)
    ensures r.name == port.name && r.typeName == Name(kind)
    ensures r.maxConcurrentTasks.Some? <==> port.concurrentTasks.Some? && port.concurrentTasks.value != 1
    ensures r.maxConcurrentTasks.Some? ==> r.maxConcurrentTasks == port.concurrentTasks
    ensures r.useCompression.Some? <==> port.useCompression == Some(true)
    ensures r.useCompression.Some? ==> r.useCompression.value
    ensures r.batchCount == port.batchCount && r.batchSize == port.batchSize && r.batchDuration == port.batchDuration
  {
    RemotePort(
      port.name, Name(kind),
      if port.concurrentTasks.Some? && port.concurrentTasks.value != 1 then port.concurrentTasks else None,
      match port.useCompression {
        case Some(b) => if b then Some(true) else None
        case None => None
      },
      port.batchCount, port.batchSize, port.batchDuration)
  }

  /** The port settings a stored record stands for. */
  function AsDto(r: RemotePort): RemotePortDto {
    RemotePortDto(r.name, r.maxConcurrentTasks, r.useCompression, r.batchCount, r.batchSize, r.batchDuration)
  }

  /**
   * Only defaults are dropped: reading an omitted task count as 1 and an
   * omitted flag as false gives the port's effective settings back, and
   * capturing the stored record again changes nothing.
   */
  lemma RemotePortKeepsSettings(port: RemotePortDto, kind: ReservedKind)
    ensures var r := RemotePortOf(port, kind);
      r.maxConcurrentTasks.GetOr(1) == port.concurrentTasks.GetOr(1)
      && r.useCompression.GetOr(false) == port.useCompression.GetOr(false)
      && RemotePortOf(AsDto(r), kind) == r
  {
  }
}
