/**
 * The client's cache: lights, scenes and the registered observers, with the
 * notifications those observers have received kept as a log.
 */
module ClientState {
  import opened Wrappers
  import opened Json
  import opened Errors
  import opened Lights
  import opened Scenes
  import opened Reconcile
  import Session

  /** A registered handler. The handler itself is not modelled, only its identity. */
  class ClientObserver {
    constructor ()
    {
    }
  }

  /** One call of an observer's handler, with the lights it was given. */
  datatype Notification = Notification(observer: ClientObserver, lights: seq<Light>)

  /** One notification per observer, in registration order. */
  function Notify(observers: seq<ClientObserver>, lights: seq<Light>): seq<Notification>
  {
    seq(|observers|, i requires 0 <= i < |observers| => Notification(observers[i], lights))
  }

  /** What `removeObserver` does to the list: drop the first entry identical to `x`. */
  function RemoveFirst<T(==)>(s: seq<T>, x: T): seq<T>
  {
    if s == [] then []
    else if s[0] == x then s[1..]
    else [s[0]] + RemoveFirst(s[1..], x)
  }

  /** Removing a token that was never added changes nothing. */
  lemma {:induction false} RemoveFirstAbsent<T>(s: seq<T>, x: T)
    requires x !in s
    ensures RemoveFirst(s, x) == s
  {
    if s != [] {
      RemoveFirstAbsent(s[1..], x);
    }
  }

  /** Removing a present token drops exactly its first entry and keeps the rest in order. */
  lemma {:induction false} RemoveFirstAt<T>(s: seq<T>, x: T, i: int)
    requires 0 <= i < |s| && s[i] == x && x !in s[..i]
    ensures RemoveFirst(s, x) == s[..i] + s[i + 1..]
  {
    if i > 0 {
      assert s[0] in s[..i];
      assert s[1..][..i - 1] == s[..i][1..];
      RemoveFirstAt(s[1..], x, i - 1);
      assert s[1..][i..] == s[i + 1..];
      assert s[..i] == [s[0]] + s[1..][..i - 1];
    }
  }

  /** Removing a present token removes one copy of it and nothing else. */
  lemma RemoveFirstOneCopy<T>(s: seq<T>, x: T, i: int)
    requires 0 <= i < |s| && s[i] == x && x !in s[..i]
    ensures |RemoveFirst(s, x)| == |s| - 1
    ensures multiset(RemoveFirst(s, x)) == multiset(s) - multiset{x}
  {
    RemoveFirstAt(s, x, i);
    assert s == s[..i] + [x] + s[i + 1..];
  }

  class Client {
    var lights: seq<Light>
    var scenes: seq<Scene>
    var observers: seq<ClientObserver>
    var notifications: seq<Notification>

    /** A client seeded with the given lights and scenes, or empty ones. */
    constructor (lights: Option<seq<Light>>, scenes: Option<seq<Scene>>)
      ensures this.lights == lights.GetOr([]) && this.scenes == scenes.GetOr([])
      ensures observers == [] && notifications == []
    {
      this.lights := lights.GetOr([]);
      this.scenes := scenes.GetOr([]);
      observers := [];
      notifications := [];
    }

    /** Calls every observer's handler once, in registration order. */
    method NotifyObservers(newLights: seq<Light>)
      modifies this
      ensures notifications == old(notifications) + Notify(observers, newLights)
      ensures lights == old(lights) && scenes == old(scenes) && observers == old(observers)
    {
      var i := 0;
      while i < |observers|
        invariant 0 <= i <= |observers|
        invariant notifications == old(notifications) + Notify(observers[..i], newLights)
        invariant lights == old(lights) && scenes == old(scenes) && observers == old(observers)
      {
        assert Notify(observers[..i + 1], newLights) ==
               Notify(observers[..i], newLights) + [Notification(observers[i], newLights)];
        notifications := notifications + [Notification(observers[i], newLights)];
        i := i + 1;
      }
      assert observers[..i] == observers;
    }

    /**
     * The completion of `fetchLights`: an error changes nothing; otherwise
     * the fetched list replaces the cache wholesale, with no stale lights
     * kept, and observers hear of it only when it differs.
     */
    method FetchLightsCompleted(fetched: seq<Light>, error: Option<NSError>) returns (reported: Option<NSError>)
      modifies this
      ensures reported == error
      ensures scenes == old(scenes) && observers == old(observers)
      ensures error.Some? || LightsEq(old(lights), fetched) ==>
              lights == old(lights) && notifications == old(notifications)
      ensures error.None? && !LightsEq(old(lights), fetched) ==>
              lights == fetched && notifications == old(notifications) + Notify(observers, fetched)
    {
      if error.Some? {
        return error;
      }
      var oldLights := lights;
      if !LightsEq(oldLights, fetched) {
        lights := fetched;
        NotifyObservers(fetched);
      }
      reported := None;
    }

    /** `fetchLights` end to end: the session's completion of the lights GET, then the cache update. */
    method FetchLights(transportError: Option<NSError>, response: Session.Response, body: Body<NSError>, now: Time)
      returns (reported: Option<NSError>)
      modifies this
      ensures var (fetched, error) := Session.LightsCompletion(transportError, response, body, now);
        && reported == error
        && scenes == old(scenes) && observers == old(observers)
        && (error.Some? || LightsEq(old(lights), fetched) ==>
            lights == old(lights) && notifications == old(notifications))
        && (error.None? && !LightsEq(old(lights), fetched) ==>
            lights == fetched && notifications == old(notifications) + Notify(observers, fetched))
    {
      var (fetched, error) := Session.LightsCompletion(transportError, response, body, now);
      reported := FetchLightsCompleted(fetched, error);
    }

    /** The completion of `fetchScenes`: replace the scenes wholesale, or on error keep them. */
    method FetchScenesCompleted(fetched: seq<Scene>, error: Option<NSError>) returns (reported: Option<NSError>)
      modifies this
      ensures reported == error
      ensures scenes == if error.Some? then old(scenes) else fetched
      ensures lights == old(lights) && observers == old(observers) && notifications == old(notifications)
    {
      if error.Some? {
        return error;
      }
      scenes := fetched;
      reported := None;
    }

    /** `fetchScenes` end to end. */
    method FetchScenes(transportError: Option<NSError>, response: Session.Response, body: Body<NSError>)
      returns (reported: Option<NSError>)
      modifies this
      ensures var (fetched, error) := Session.ScenesCompletion(transportError, response, body);
        && reported == error
        && scenes == (if error.Some? then old(scenes) else fetched)
      ensures lights == old(lights) && observers == old(observers) && notifications == old(notifications)
    {
      var (fetched, error) := Session.ScenesCompletion(transportError, response, body);
      reported := FetchScenesCompleted(fetched, error);
    }

    /** `addObserver`: a new token, registered last. */
    method AddObserver() returns (observer: ClientObserver)
      modifies this
      ensures fresh(observer)
      ensures observers == old(observers) + [observer]
      ensures lights == old(lights) && scenes == old(scenes) && notifications == old(notifications)
    {
      observer := new ClientObserver();
      observers := observers + [observer];
    }

    /** `removeObserver`: drop the first entry identical to the token, if any. */
    method RemoveObserver(observer: ClientObserver)
      modifies this
      ensures observers == RemoveFirst(old(observers), observer)
      ensures observer !in old(observers) ==> observers == old(observers)
      ensures lights == old(lights) && scenes == old(scenes) && notifications == old(notifications)
    {
      var index := 0;
      while index < |observers|
        invariant 0 <= index <= |observers|
        invariant observers == old(observers)
        invariant observer !in observers[..index]
      {
        if observers[index] == observer {
          RemoveFirstAt(observers, observer, index);
          observers := observers[..index] + observers[index + 1..];
          return;
        }
        assert observers[..index + 1] == observers[..index] + [observers[index]];
        index := index + 1;
      }
      assert observers[..index] == observers;
      RemoveFirstAbsent(observers, observer);
    }

    /**
     * `updateLights`: merge the fetched lights into the cache, keeping cached
     * lights the fetch did not mention; if the merge differs from the cache,
     * notify every observer with it and make it the cache.
     */
    method UpdateLights(fetched: seq<Light>)
      modifies this
      ensures var merged := Merge(old(lights), fetched);
        if LightsEq(old(lights), merged)
        then lights == old(lights) && notifications == old(notifications)
        else lights == merged && notifications == old(notifications) + Notify(observers, merged)
      ensures DistinctIds(lights)
      ensures DistinctIds(old(lights)) && LightsEq(fetched, old(lights)) ==>
              lights == old(lights) && notifications == old(notifications)
      ensures scenes == old(scenes) && observers == old(observers)
    {
      var oldLights := lights;
      var newLights: seq<Light> := [];
      var i := 0;
      while i < |fetched|
        invariant 0 <= i <= |fetched|
        invariant AppendNew(newLights, fetched[i..]) == AppendNew([], fetched)
      {
        assert fetched[i..][1..] == fetched[i + 1..];
        if !HasId(newLights, fetched[i].id) {
          newLights := newLights + [fetched[i]];
        }
        i := i + 1;
      }
      var j := 0;
      while j < |oldLights|
        invariant 0 <= j <= |oldLights|
        invariant AppendNew(newLights, oldLights[j..]) == Merge(oldLights, fetched)
      {
        assert oldLights[j..][1..] == oldLights[j + 1..];
        if !HasId(newLights, oldLights[j].id) {
          newLights := newLights + [oldLights[j]];
        }
        j := j + 1;
      }
      MergeCacheFacts(oldLights, fetched);
      if !LightsEq(oldLights, newLights) {
        NotifyObservers(newLights);
        lights := newLights;
      }
    }
  }

  /**
   * Cache [A, B] with one observer, fetch [B', C] where B' is B with another
   * brightness: the cache becomes [B', C, A] and the observer hears of it once.
   */
  method UpdateLightsExample(a: Light, b: Light, b': Light, c: Light)
    returns (cache: seq<Light>, log: seq<Notification>)
    requires a.id == "1" && b.id == "2" && b'.id == "2" && c.id == "3"
    requires b'.brightness != b.brightness
    ensures cache == [b', c, a]
    ensures |log| == 1 && log[0].lights == [b', c, a]
  {
    var client := new Client(Some([a, b]), None);
    var observer := client.AddObserver();
    MergeExample(a, b, b', c);
    LightsEqIsEquivalence([a, b], Merge([a, b], [b', c]), [a, b]);
    client.UpdateLights([b', c]);
    cache, log := client.lights, client.notifications;
  }
}
