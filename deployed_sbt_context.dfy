/**
 * The deployment context: `resolve` deploys (or joins) a contract and reports
 * its progress on a shared stream of deployment events.
 */
module DeployedSbtContext {
  import opened JsRuntime
  import opened SbtApi

  datatype SbtDeploymentStatus = InProgress | Complete | Failed

  datatype SbtDeploymentError = SbtDeploymentError(message: string)

  /** One event on the deployment stream. */
  datatype SbtDeployment = SbtDeployment(
    status: SbtDeploymentStatus,
    error: Option<SbtDeploymentError>,
    api: Option<DeployedSbtApi>)

  /** The event `resolve` emits before it awaits the deployment. */
  const Started := SbtDeployment(InProgress, None, None)

  /**
   * The events one `resolve` emits, given what the awaited `deploy` call
   * does: first `in-progress`, then `complete` with the handle or `failed`
   * with the thrown value's text.
   */
  function ResolveEvents(deployment: Outcome<DeployedSbtApi>): (events: seq<SbtDeployment>)
    ensures |events| == 2
    ensures events[0] == Started
    ensures events[1].status != InProgress
    ensures events[1].status == Complete <==> deployment.Returns?
    ensures deployment.Returns? ==> events[1].api == Some(deployment.value) && events[1].error == None
    ensures deployment.Throws? ==>
      && events[1].api == None
      && events[1].error == Some(SbtDeploymentError(ErrorText(deployment.thrown)))
  {
    var last := match deployment
      case Returns(api) => SbtDeployment(Complete, None, Some(api))
      case Throws(e) => SbtDeployment(Failed, Some(SbtDeploymentError(ErrorText(e))), None);
    [Started, last]
  }

  /** A settling event: complete with a handle, or failed with an error. */
  predicate Settles(e: SbtDeployment) {
    || (e.status == Complete && e.error.None? && e.api.Some?)
    || (e.status == Failed && e.error.Some? && e.api.None?)
  }

  /**
   * The stream after a number of finished `resolve` calls: start and
   * settling events alternate, beginning with a start.
   */
  predicate Alternates(log: seq<SbtDeployment>) {
    && |log| % 2 == 0
    && forall k | 0 <= k < |log| :: if k % 2 == 0 then log[k] == Started else Settles(log[k])
  }

  /** A finished `resolve` keeps the stream alternating. */
  lemma ResolveKeepsAlternation(log: seq<SbtDeployment>, deployment: Outcome<DeployedSbtApi>)
    requires Alternates(log)
    ensures Alternates(log + ResolveEvents(deployment))
  {
  }

  /** In an alternating stream every start is followed at once by its settling event. */
  lemma EveryStartSettles(log: seq<SbtDeployment>, k: nat)
    requires Alternates(log)
    requires k < |log| && log[k].status == InProgress
    ensures k + 1 < |log| && Settles(log[k + 1])
  {
  }

  /** The subject the context's provider owns, with everything emitted on it so far. */
  class DeploymentSubject {
    var emitted: seq<SbtDeployment>

    ghost predicate Valid()
      reads this
    {
      Alternates(emitted)
    }

    constructor ()
      ensures Valid() && emitted == []
    {
      emitted := [];
    }

    /**
     * One `resolve`, run to its end: it emits the start event, awaits the
     * deployment and emits how it went.
     */
    method Resolve(deployment: Outcome<DeployedSbtApi>)
      requires Valid()
      modifies this
      ensures Valid()
      ensures emitted == old(emitted) + ResolveEvents(deployment)
    {
      var events := ResolveEvents(deployment);
      emitted := emitted + [events[0]];
      emitted := emitted + [events[1]];
      ResolveKeepsAlternation(old(emitted), deployment);
    }
  }
}
