/**
 * The dispatcher service: a registry from channel to the sender that
 * handles it, built once from the list of available senders and then only
 * read. A request goes to the sender registered for its channel; a request
 * for a channel nobody registered is refused.
 */
module Dispatcher {
  import opened Wrappers
  import opened Messages

  /**
   * A channel sender, known by its name and the channel it reports. What a
   * sender does with a request (for the email sender, writing a log line)
   * is outside the model: an invocation is recorded, not performed.
   */
  datatype ChannelDispatcher = ChannelDispatcher(name: string, channel: ChannelType)

  /** The one sender the service ships with; it reports the EMAIL channel. */
  const EmailDispatcher := ChannelDispatcher("EmailDispatcher", EMAIL)

  /** Collecting the senders into a map met a channel reported twice. */
  datatype ConfigError = DuplicateKey(channel: ChannelType)

  /** No sender is registered for the request's channel. */
  datatype DispatchError = NoDispatcherFor(channel: ChannelType)

  /** One call of a sender's `dispatch` with a request. */
  datatype Invocation = Invocation(dispatcher: ChannelDispatcher, request: NotificationRequest)

  /** The channels the senders report. */
  function ChannelsOf(dispatcherList: seq<ChannelDispatcher>): set<ChannelType> {
    set d | d in dispatcherList :: d.channel
  }

  /** No two senders report the same channel. */
  predicate DistinctChannels(dispatcherList: seq<ChannelDispatcher>) {
    forall i, j :: 0 <= i < j < |dispatcherList| ==> dispatcherList[i].channel != dispatcherList[j].channel
  }

  /** A list reports distinct channels when its tail does and its head's channel is new. */
  lemma DistinctChannelsCons(dispatcherList: seq<ChannelDispatcher>)
    requires dispatcherList != []
    ensures ChannelsOf(dispatcherList) == {dispatcherList[0].channel} + ChannelsOf(dispatcherList[1..])
    ensures DistinctChannels(dispatcherList) <==>
      DistinctChannels(dispatcherList[1..]) && dispatcherList[0].channel !in ChannelsOf(dispatcherList[1..])
  {
    var head, tail := dispatcherList[0], dispatcherList[1..];
    assert dispatcherList == [head] + tail;
    if DistinctChannels(tail) && head.channel !in ChannelsOf(tail) {
      forall i, j | 0 <= i < j < |dispatcherList| ensures dispatcherList[i].channel != dispatcherList[j].channel {
        assert dispatcherList[j] == tail[j - 1];
        if i == 0 {
          assert tail[j - 1] in tail;
        } else {
          assert dispatcherList[i] == tail[i - 1];
        }
      }
    }
    if DistinctChannels(dispatcherList) {
      forall d | d in tail ensures d.channel != head.channel {
        var j :| 0 <= j < |tail| && tail[j] == d;
        assert dispatcherList[j + 1] == d;
      }
    }
  }

  /**
   * Adds the senders to `acc` one by one, keyed by the channel each
   * reports, failing at the first sender whose channel is already a key.
   */
  function CollectInto(acc: map<ChannelType, ChannelDispatcher>, rest: seq<ChannelDispatcher>)
    : (r: Result<map<ChannelType, ChannelDispatcher>, ConfigError>)
    ensures r.Success? <==> DistinctChannels(rest) && acc.Keys !! ChannelsOf(rest)
    ensures r.Success? ==>
      && r.value.Keys == acc.Keys + ChannelsOf(rest)
      && (forall k :: k in acc ==> r.value[k] == acc[k])
      && (forall i :: 0 <= i < |rest| ==> r.value[rest[i].channel] == rest[i])
    ensures r.Failure? ==> r.error.channel in ChannelsOf(rest)
    decreases |rest|
  {
    if rest == [] then Success(acc)
    else if rest[0].channel in acc then
      assert rest[0] in rest;
      Failure(DuplicateKey(rest[0].channel))
    else
      DistinctChannelsCons(rest);
      var acc' := acc[rest[0].channel := rest[0]];
      assert acc'.Keys == acc.Keys + {rest[0].channel};
      var r := CollectInto(acc', rest[1..]);
      if r.Success? then
        assert forall i :: 0 < i < |rest| ==> rest[i] == rest[1..][i - 1];
        r
      else
        r
  }

  /**
   * The channel named by a failed collection is already a key of the
   * accumulator or reported by two of the remaining senders.
   */
  lemma {:induction false} CollectIntoNamesDuplicate(acc: map<ChannelType, ChannelDispatcher>,
                                                     rest: seq<ChannelDispatcher>)
    requires CollectInto(acc, rest).Failure?
    ensures
      var c := CollectInto(acc, rest).error.channel;
      || c in acc
      || exists i, j :: 0 <= i < j < |rest| && rest[i].channel == rest[j].channel == c
    decreases |rest|
  {
    if rest[0].channel !in acc {
      var acc' := acc[rest[0].channel := rest[0]];
      CollectIntoNamesDuplicate(acc', rest[1..]);
      var c := CollectInto(acc', rest[1..]).error.channel;
      if c !in acc {
        if c == rest[0].channel {
          assert c in ChannelsOf(rest[1..]);
          var j :| 0 <= j < |rest[1..]| && rest[1..][j].channel == c;
          assert rest[j + 1].channel == rest[0].channel;
        } else {
          var i, j :| 0 <= i < j < |rest[1..]| && rest[1..][i].channel == rest[1..][j].channel == c;
          assert rest[i + 1].channel == rest[j + 1].channel;
        }
      }
    }
  }

  /**
   * Collects the senders into a map from channel to sender. It succeeds
   * exactly when no channel is reported twice, and then maps each reported
   * channel to the sender that reported it; otherwise it names a channel
   * reported by two senders.
   */
  function CollectToMap(dispatcherList: seq<ChannelDispatcher>)
    : (r: Result<map<ChannelType, ChannelDispatcher>, ConfigError>)
    ensures r.Success? <==> DistinctChannels(dispatcherList)
    ensures r.Success? ==>
      && r.value.Keys == ChannelsOf(dispatcherList)
      && forall i :: 0 <= i < |dispatcherList| ==> r.value[dispatcherList[i].channel] == dispatcherList[i]
    ensures r.Failure? ==>
      exists i, j :: 0 <= i < j < |dispatcherList|
        && dispatcherList[i].channel == dispatcherList[j].channel == r.error.channel
  {
    var r := CollectInto(map[], dispatcherList);
    if r.Failure? then
      CollectIntoNamesDuplicate(map[], dispatcherList);
      r
    else
      r
  }

  /**
   * A registry is determined by the senders it was built from: two maps
   * whose keys are the reported channels and that send each channel to the
   * sender reporting it are equal.
   */
  lemma RegistryDetermined(dispatcherList: seq<ChannelDispatcher>, m1: map<ChannelType, ChannelDispatcher>,
                           m2: map<ChannelType, ChannelDispatcher>)
    requires m1.Keys == ChannelsOf(dispatcherList) && m2.Keys == ChannelsOf(dispatcherList)
    requires forall i :: 0 <= i < |dispatcherList| ==> m1[dispatcherList[i].channel] == dispatcherList[i]
    requires forall i :: 0 <= i < |dispatcherList| ==> m2[dispatcherList[i].channel] == dispatcherList[i]
    ensures m1 == m2
  {
    forall c | c in m1.Keys ensures m1[c] == m2[c] {
      var d :| d in dispatcherList && d.channel == c;
      var i :| 0 <= i < |dispatcherList| && dispatcherList[i] == d;
    }
  }

  /** The registry built from the email sender alone routes EMAIL, and only EMAIL, to it. */
  lemma EmailOnlyRegistry()
    ensures CollectToMap([EmailDispatcher]) == Success(map[EMAIL := EmailDispatcher])
  {
    var list := [EmailDispatcher];
    assert ChannelsOf(list) == {EMAIL};
    var r := CollectToMap(list);
    assert r.Success?;
    RegistryDetermined(list, r.value, map[EMAIL := EmailDispatcher]);
  }

  class DispatcherService {
    /** The registry; fixed when the service is built and never changed. */
    const dispatchers: map<ChannelType, ChannelDispatcher>

    /**
     * Builds the registry from senders that report distinct channels: its
     * keys are exactly the reported channels and each maps to the sender
     * that reported it.
     */
    constructor (dispatcherList: seq<ChannelDispatcher>)
      requires DistinctChannels(dispatcherList)
      ensures dispatchers.Keys == ChannelsOf(dispatcherList)
      ensures forall i :: 0 <= i < |dispatcherList| ==> dispatchers[dispatcherList[i].channel] == dispatcherList[i]
    {
      dispatchers := CollectToMap(dispatcherList).value;
    }

    /**
     * Builds the service, or fails with the duplicate-key error when two
     * senders report the same channel, in which case no service exists.
     */
    static method Create(dispatcherList: seq<ChannelDispatcher>)
      returns (r: Result<DispatcherService, ConfigError>)
      ensures r.Failure? <==> !DistinctChannels(dispatcherList)
      ensures r.Failure? ==> r == Failure(CollectToMap(dispatcherList).error)
      ensures r.Success? ==> fresh(r.value) && Success(r.value.dispatchers) == CollectToMap(dispatcherList)
    {
      var collected := CollectToMap(dispatcherList);
      if collected.Failure? {
        return Failure(collected.error);
      }
      var service := new DispatcherService(dispatcherList);
      RegistryDetermined(dispatcherList, service.dispatchers, collected.value);
      return Success(service);
    }

    /**
     * Hands the request, unchanged, to the sender registered for its
     * channel, exactly once; for an unregistered channel no sender is
     * called and the request is refused. The registry is left as it is.
     */
    method Dispatch(request: NotificationRequest) returns (invoked: seq<Invocation>, error: Option<DispatchError>)
      ensures request.channel in dispatchers ==>
        invoked == [Invocation(dispatchers[request.channel], request)] && error == None
      ensures request.channel !in dispatchers ==>
        invoked == [] && error == Some(NoDispatcherFor(request.channel))
    {
      if request.channel in dispatchers {
        var dispatcher := dispatchers[request.channel];
        invoked, error := [Invocation(dispatcher, request)], None;
      } else {
        invoked, error := [], Some(NoDispatcherFor(request.channel));
      }
    }
  }

  /**
   * A request is delivered by a registry built from the senders exactly
   * when one of them reports the request's channel, and then by that sender.
   */
  lemma RoutedToReportingSender(dispatcherList: seq<ChannelDispatcher>, request: NotificationRequest, k: nat)
    requires DistinctChannels(dispatcherList)
    requires k < |dispatcherList| && dispatcherList[k].channel == request.channel
    ensures
      var registry := CollectToMap(dispatcherList).value;
      request.channel in registry && registry[request.channel] == dispatcherList[k]
  {
  }
}
