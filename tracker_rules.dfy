/**
 * The request-tracking rules of `OllamaAi.request` and `OllamaAi.abortAll`
 * (src/helpers/ollamaHelpers.ts) as step functions over the tracker's
 * state. `request` is cut at its only suspension point: `BeginStep` is
 * everything up to the `fetch`, `SettleStep` everything after it. An
 * `AbortController` is a signal number; calling `abort()` puts that number
 * in `aborted`.
 */
module TrackerRules {

  import opened Wrappers
  import opened OllamaTypes
  import opened KeyRules

  /** `TrackedRequest`: the aborter (as its signal), the resolved url and the key. */
  datatype TrackedRequest = TrackedRequest(signal: nat, url: string, key: string)

  datatype TrackerState = TrackerState(
    requests: seq<TrackedRequest>,  // `this.requests`, in order
    aborted: set<nat>,              // signals whose `abort()` has been called
    nextSignal: nat)                // the signal the next `new AbortController()` gets

  datatype HttpMethod = Get | Post

  /** The arguments `fetch` is called with. */
  datatype FetchCall = FetchCall(
    url: string,
    verb: HttpMethod,
    body: Option<ChatRequestBody>,
    signal: Option<nat>)

  /**
   * How the synchronous part of `request` ends: it returns `undefined`
   * without a fetch, it throws `TypeError('body must be valid JSON')`, or it
   * issues the fetch.
   */
  datatype Begun = Ignored | SerialisationError | Dispatched(call: FetchCall)

  datatype Began = Began(outcome: Begun, state: TrackerState)

  /** How the awaited `fetch` settled. */
  datatype FetchOutcome = Responded(json: ResponseJson) | AbortError | NetworkError

  datatype Settled = Settled(response: Option<ResponseJson>, state: TrackerState)

  /** `if (idempotencyKey)`: an absent or empty key is not tracked. */
  predicate IsTracked(key: Option<string>)
  {
    key.Some? && key.value != []
  }

  /**
   * The entries whose match against `key` is one of `kinds`, in their
   * original order: the model of `this.requests.filter(...)`.
   */
  function Select(reqs: seq<TrackedRequest>, key: string, kinds: set<KeyMatch>): (r: seq<TrackedRequest>)
    ensures |r| <= |reqs|
    ensures forall x :: x in r <==> x in reqs && GetKeyMatch(x.key, key) in kinds
  {
    if reqs == [] then []
    else (if GetKeyMatch(reqs[0].key, key) in kinds then [reqs[0]] else []) + Select(reqs[1..], key, kinds)
  }

  function Signals(reqs: seq<TrackedRequest>): set<nat>
  {
    set x | x in reqs :: x.signal
  }

  /** `config.method !== 'get' && config.body`: the only case where the body is encoded. */
  predicate EncodesBody(verb: HttpMethod, body: Option<ChatRequestBody>)
  {
    verb == Post && body.Some?
  }

  /**
   * Lines 37-95 of `request`: register (or not) and encode the body.
   * `encodes` says whether `JSON.stringify` succeeds on the body; `url` is
   * the already resolved `new URL(path, base)`.
   */
  function BeginStep(s: TrackerState, url: string, verb: HttpMethod, body: Option<ChatRequestBody>,
                     encodes: bool, key: Option<string>): Began
  {
    var sent := if EncodesBody(verb, body) then body else None;
    var fails := EncodesBody(verb, body) && !encodes;
    if !IsTracked(key) then
      // filtering on an undefined key removes nothing
      if fails then Began(SerialisationError, s)
      else Began(Dispatched(FetchCall(url, verb, sent, None)), s)
    else
      var k := key.value;
      if |Select(s.requests, k, {Partial})| == 0 && |Select(s.requests, k, {Full})| > 0 then Began(Ignored, s)
      else
        var admitted := Admitted(s, url, k);
        if fails then
          // the filter on the key drops the entry just pushed, but aborts nothing
          Began(SerialisationError, admitted.(requests := Select(admitted.requests, k, {Partial, NoMatch})))
        else
          Began(Dispatched(FetchCall(url, verb, sent, Some(s.nextSignal))), admitted)
  }

  /**
   * The state once a keyed request that is not ignored has aborted and
   * dropped its partial matches and pushed its own entry.
   */
  function Admitted(s: TrackerState, url: string, k: string): TrackerState
  {
    var partial := Select(s.requests, k, {Partial});
    TrackerState(Select(s.requests, k, {Full, NoMatch}) + [TrackedRequest(s.nextSignal, url, k)],
                 s.aborted + Signals(partial), s.nextSignal + 1)
  }

  /**
   * Lines 100-112 of `request`: an abort or any other fetch error becomes
   * `undefined`, and every entry carrying the request's key is dropped.
   */
  function SettleStep(s: TrackerState, key: Option<string>, outcome: FetchOutcome): (r: Settled)
    ensures r.response.Some? <==> outcome.Responded?
    ensures r.response.Some? ==> r.response.value == outcome.json
    ensures r.state.aborted == s.aborted && r.state.nextSignal == s.nextSignal
    ensures IsTracked(key) ==> forall x :: x in r.state.requests <==> x in s.requests && x.key != key.value
    ensures !IsTracked(key) ==> r.state.requests == s.requests
  {
    var response := if outcome.Responded? then Some(outcome.json) else None;
    if IsTracked(key) then
      Settled(response, s.(requests := Select(s.requests, key.value, {Partial, NoMatch})))
    else
      Settled(response, s)
  }

  /** `abortAll`: abort every tracked request, then forget them all. */
  function AbortAllStep(s: TrackerState): (r: TrackerState)
    ensures r.requests == []
    ensures forall x :: x in s.requests ==> x.signal in r.aborted
    ensures s.aborted <= r.aborted && r.nextSignal == s.nextSignal
  {
    TrackerState([], s.aborted + Signals(s.requests), s.nextSignal)
  }

  // ----- invariants -----

  /** At most one tracked request per name part; in particular no key is tracked twice. */
  predicate OnePerName(reqs: seq<TrackedRequest>)
  {
    forall x, y :: x in reqs && y in reqs && NamePart(x.key) == NamePart(y.key) ==> x == y
  }

  /** Signals are handed out in order; tracked ones are distinct and not yet aborted. */
  predicate Live(s: TrackerState)
  {
    DistinctSignals(s.requests) &&
    (forall a :: a in s.aborted ==> a < s.nextSignal) &&
    forall x :: x in s.requests ==> x.signal < s.nextSignal && x.signal !in s.aborted
  }

  predicate DistinctSignals(reqs: seq<TrackedRequest>)
  {
    forall i, j :: 0 <= i < j < |reqs| ==> reqs[i].signal != reqs[j].signal
  }

  predicate Invariant(s: TrackerState)
  {
    OnePerName(s.requests) && Live(s)
  }

  function Initial(): (s: TrackerState)
    ensures Invariant(s)
  {
    TrackerState([], {}, 0)
  }

  // ----- filtering -----

  lemma {:induction false} SelectAppend(a: seq<TrackedRequest>, b: seq<TrackedRequest>, key: string, kinds: set<KeyMatch>)
    ensures Select(a + b, key, kinds) == Select(a, key, kinds) + Select(b, key, kinds)
  {
    if a == [] {
      assert a + b == b;
    } else {
      assert (a + b)[0] == a[0] && (a + b)[1..] == a[1..] + b;
      SelectAppend(a[1..], b, key, kinds);
    }
  }

  /** Filtering twice keeps the entries both filters keep. */
  lemma {:induction false} SelectSelect(reqs: seq<TrackedRequest>, key: string, kinds: set<KeyMatch>, more: set<KeyMatch>)
    ensures Select(Select(reqs, key, kinds), key, more) == Select(reqs, key, kinds * more)
  {
    if reqs != [] {
      SelectSelect(reqs[1..], key, kinds, more);
      var head := if GetKeyMatch(reqs[0].key, key) in kinds then [reqs[0]] else [];
      SelectAppend(head, Select(reqs[1..], key, kinds), key, more);
    }
  }

  /** A filter that every entry passes changes nothing. */
  lemma {:induction false} SelectAll(reqs: seq<TrackedRequest>, key: string, kinds: set<KeyMatch>)
    requires forall x :: x in reqs ==> GetKeyMatch(x.key, key) in kinds
    ensures Select(reqs, key, kinds) == reqs
  {
    if reqs != [] {
      SelectAll(reqs[1..], key, kinds);
    }
  }

  /** Filtering never makes two entries share a signal. */
  lemma {:induction false} SelectDistinct(reqs: seq<TrackedRequest>, key: string, kinds: set<KeyMatch>)
    requires DistinctSignals(reqs)
    ensures DistinctSignals(Select(reqs, key, kinds))
  {
    if reqs != [] {
      SelectDistinct(reqs[1..], key, kinds);
      var rest := Select(reqs[1..], key, kinds);
      forall y | y in rest
        ensures y.signal != reqs[0].signal
      {
        var j :| 0 <= j < |reqs[1..]| && reqs[1..][j] == y;
        assert reqs[j + 1] == y;
      }
    }
  }

  // ----- begin -----

  /**
   * A keyed request is ignored exactly when some tracked entry has its very
   * key and none shares only its name part; the tracker is then untouched
   * and no fetch is issued.
   */
  lemma BeginIgnoredExactly(s: TrackerState, url: string, verb: HttpMethod, body: Option<ChatRequestBody>,
                            encodes: bool, key: Option<string>)
    requires IsTracked(key)
    ensures var b := BeginStep(s, url, verb, body, encodes, key);
      (b.outcome == Ignored <==>
        (exists x :: x in s.requests && x.key == key.value) &&
        (forall x :: x in s.requests ==> GetKeyMatch(x.key, key.value) != Partial)) &&
      (b.outcome == Ignored ==> b.state == s)
  {
    SelectNonEmpty(s.requests, key.value, {Full});
    SelectNonEmpty(s.requests, key.value, {Partial});
  }

  /** A filter keeps something exactly when some entry passes it. */
  lemma SelectNonEmpty(reqs: seq<TrackedRequest>, key: string, kinds: set<KeyMatch>)
    ensures |Select(reqs, key, kinds)| > 0 <==> exists x :: x in reqs && GetKeyMatch(x.key, key) in kinds
  {
  }

  /** A request without a usable key never reads or changes the tracked list. */
  lemma BeginUntracked(s: TrackerState, url: string, verb: HttpMethod, body: Option<ChatRequestBody>,
                       encodes: bool, key: Option<string>)
    requires !IsTracked(key)
    ensures var b := BeginStep(s, url, verb, body, encodes, key);
      b.state == s &&
      (b.outcome == SerialisationError <==> EncodesBody(verb, body) && !encodes) &&
      (b.outcome != SerialisationError ==> b.outcome.Dispatched? && b.outcome.call.signal == None)
  {
  }

  /**
   * A keyed request that goes ahead aborts and drops every partial match,
   * keeps every other entry in its order, appends itself with a fresh
   * signal, and sends its body only for a non-`get` method.
   */
  lemma BeginProceeds(s: TrackerState, url: string, verb: HttpMethod, body: Option<ChatRequestBody>,
                      encodes: bool, key: Option<string>)
    requires IsTracked(key)
    requires BeginStep(s, url, verb, body, encodes, key).outcome.Dispatched?
    ensures var b := BeginStep(s, url, verb, body, encodes, key);
      var k := key.value;
      b.outcome.call == FetchCall(url, verb, if verb == Post then body else None, Some(s.nextSignal)) &&
      b.state.requests == Select(s.requests, k, {Full, NoMatch}) + [TrackedRequest(s.nextSignal, url, k)] &&
      (forall x :: x in s.requests && GetKeyMatch(x.key, k) == Partial ==>
         x.signal in b.state.aborted && x !in b.state.requests) &&
      b.state.aborted == s.aborted + Signals(Select(s.requests, k, {Partial}))
  {
  }

  /**
   * Under the invariant, a request that goes ahead ends up as the last
   * entry and the only one with its key, and all entries with another name
   * part stay as they were.
   */
  lemma BeginProceedsUnderInvariant(s: TrackerState, url: string, verb: HttpMethod, body: Option<ChatRequestBody>,
                                    encodes: bool, key: Option<string>)
    requires Invariant(s) && IsTracked(key)
    requires BeginStep(s, url, verb, body, encodes, key).outcome.Dispatched?
    ensures var r := BeginStep(s, url, verb, body, encodes, key).state.requests;
      r == Select(s.requests, key.value, {NoMatch}) + [TrackedRequest(s.nextSignal, url, key.value)] &&
      forall i :: 0 <= i < |r| ==> (r[i].key == key.value <==> i == |r| - 1)
  {
    var k := key.value;
    NoFullBesidePartial(s, k);
    var kept := Select(s.requests, k, {Full, NoMatch});
    SelectSelect(s.requests, k, {Full, NoMatch}, {NoMatch});
    assert {Full, NoMatch} * {NoMatch} == {NoMatch};
    SelectAll(kept, k, {NoMatch});
    var r := kept + [TrackedRequest(s.nextSignal, url, k)];
    assert forall i :: 0 <= i < |kept| ==> kept[i] in kept;
  }

  /**
   * With at most one entry per name part, a request that is not ignored
   * finds no entry with its full key.
   */
  lemma NoFullBesidePartial(s: TrackerState, k: string)
    requires OnePerName(s.requests)
    requires |Select(s.requests, k, {Partial})| > 0 || |Select(s.requests, k, {Full})| == 0
    ensures forall x :: x in s.requests ==> x.key != k
  {
    SelectNonEmpty(s.requests, k, {Full});
    SelectNonEmpty(s.requests, k, {Partial});
  }

  /**
   * A body that does not encode fails only for a non-`get` request with a
   * body that was not ignored. The keyed request then leaves no entry with
   * its key behind, while its partial matches stay aborted and removed: only
   * entries with another name part survive, in order.
   */
  lemma BeginSerialisationFailure(s: TrackerState, url: string, verb: HttpMethod, body: Option<ChatRequestBody>,
                                  encodes: bool, key: Option<string>)
    requires BeginStep(s, url, verb, body, encodes, key).outcome == SerialisationError
    ensures EncodesBody(verb, body) && !encodes
    ensures IsTracked(key) ==>
      var b := BeginStep(s, url, verb, body, encodes, key);
      b.state.requests == Select(s.requests, key.value, {NoMatch}) &&
      (forall x :: x in b.state.requests ==> x.key != key.value) &&
      b.state.aborted == s.aborted + Signals(Select(s.requests, key.value, {Partial}))
  {
    if IsTracked(key) {
      var k := key.value;
      var entry := TrackedRequest(s.nextSignal, url, k);
      var kept := Select(s.requests, k, {Full, NoMatch});
      SelectAppend(kept, [entry], k, {Partial, NoMatch});
      assert Select([entry], k, {Partial, NoMatch}) == [];
      SelectSelect(s.requests, k, {Full, NoMatch}, {Partial, NoMatch});
      assert {Full, NoMatch} * {Partial, NoMatch} == {NoMatch};
    }
  }

  // ----- the invariant is kept -----

  lemma BeginPreservesInvariant(s: TrackerState, url: string, verb: HttpMethod, body: Option<ChatRequestBody>,
                                encodes: bool, key: Option<string>)
    requires Invariant(s)
    ensures Invariant(BeginStep(s, url, verb, body, encodes, key).state)
  {
    var b := BeginStep(s, url, verb, body, encodes, key);
    if IsTracked(key) && b.outcome != Ignored {
      var k := key.value;
      NoFullBesidePartial(s, k);
      var admitted := Admitted(s, url, k);
      AdmittedKeepsInvariant(s, url, k);
      if b.outcome == SerialisationError {
        assert b.state == admitted.(requests := Select(admitted.requests, k, {Partial, NoMatch}));
        SelectDistinct(admitted.requests, k, {Partial, NoMatch});
      } else {
        assert b.state == admitted;
      }
    }
  }

  lemma AdmittedKeepsInvariant(s: TrackerState, url: string, k: string)
    requires Invariant(s)
    requires forall x :: x in s.requests ==> x.key != k
    ensures Invariant(Admitted(s, url, k))
  {
    var kept := Select(s.requests, k, {Full, NoMatch});
    var partial := Select(s.requests, k, {Partial});
    SelectDistinct(s.requests, k, {Full, NoMatch});
    forall x | x in kept
      ensures x.signal !in Signals(partial)
    {
      forall y | y in partial
        ensures x.signal != y.signal
      {
        if x.signal == y.signal {
          SignalsIdentify(s.requests, x, y);
        }
      }
    }
    assert s.nextSignal !in Signals(partial);
  }

  /** Distinct signals mean a signal names one entry. */
  lemma SignalsIdentify(reqs: seq<TrackedRequest>, x: TrackedRequest, y: TrackedRequest)
    requires DistinctSignals(reqs) && x in reqs && y in reqs && x.signal == y.signal
    ensures x == y
  {
  }

  lemma SettlePreservesInvariant(s: TrackerState, key: Option<string>, outcome: FetchOutcome)
    requires Invariant(s)
    ensures Invariant(SettleStep(s, key, outcome).state)
  {
    if IsTracked(key) {
      SelectDistinct(s.requests, key.value, {Partial, NoMatch});
    }
  }

  lemma AbortAllPreservesInvariant(s: TrackerState)
    requires Invariant(s)
    ensures Invariant(AbortAllStep(s))
  {
  }

  /** Under the invariant no key is tracked twice. */
  lemma KeysDistinct(s: TrackerState)
    requires Invariant(s)
    ensures forall i, j :: 0 <= i < j < |s.requests| ==> s.requests[i].key != s.requests[j].key
  {
  }

  // ----- consequences of the rules, on concrete runs -----

  /**
   * The same key sent again while its first request is in flight does not
   * replace that request: the second call is ignored and the first stays
   * tracked. The newest request does not win.
   */
  lemma RepeatedKeyIsIgnored(url: string, k: string)
    requires k != []
    ensures var first := BeginStep(Initial(), url, Post, None, true, Some(k));
      var second := BeginStep(first.state, url, Post, None, true, Some(k));
      first.outcome == Dispatched(FetchCall(url, Post, None, Some(0))) &&
      second.outcome == Ignored && second.state == first.state &&
      second.state.requests == [TrackedRequest(0, url, k)]
  {
  }

  /**
   * Settling removes by key, not by call. Call A (key `k1`) is superseded by
   * B (same name part, key `k2`), which is superseded by C (key `k1` again).
   * When A's aborted fetch finally rejects, its settlement drops C's entry
   * although C is still in flight and was never aborted; a later call D
   * with key `k2` then goes out without aborting C.
   */
  lemma LateSettleDropsNewerEntry(url: string, k1: string, k2: string)
    requires k1 != [] && k2 != [] && k1 != k2 && NamePart(k1) == NamePart(k2)
    ensures
      var a := BeginStep(Initial(), url, Post, None, true, Some(k1));
      var b := BeginStep(a.state, url, Post, None, true, Some(k2));
      var c := BeginStep(b.state, url, Post, None, true, Some(k1));
      var late := SettleStep(c.state, Some(k1), AbortError);
      var d := BeginStep(late.state, url, Post, None, true, Some(k2));
      0 in b.state.aborted && 1 in c.state.aborted &&
      c.outcome.Dispatched? && c.state.requests == [TrackedRequest(2, url, k1)] &&
      late.response == None && late.state.requests == [] &&
      d.outcome.Dispatched? && 2 !in d.state.aborted
  {
    var a := BeginStep(Initial(), url, Post, None, true, Some(k1));
    BeginOnEmpty(Initial(), url, k1);
    SupersedeSole(a.state, url, k2);
    var b := BeginStep(a.state, url, Post, None, true, Some(k2));
    SupersedeSole(b.state, url, k1);
    var c := BeginStep(b.state, url, Post, None, true, Some(k1));
    assert c.state.requests == [TrackedRequest(2, url, k1)];
    var late := SettleStep(c.state, Some(k1), AbortError);
    assert late.state.requests == [];
    BeginOnEmpty(late.state, url, k2);
  }

  lemma BeginOnEmpty(s: TrackerState, url: string, k: string)
    requires s.requests == [] && k != []
    ensures BeginStep(s, url, Post, None, true, Some(k)) ==
      Began(Dispatched(FetchCall(url, Post, None, Some(s.nextSignal))),
            TrackerState([TrackedRequest(s.nextSignal, url, k)], s.aborted, s.nextSignal + 1))
  {
  }

  /** A lone tracked request sharing only the name part is aborted and replaced. */
  lemma SupersedeSole(s: TrackerState, url: string, k: string)
    requires |s.requests| == 1 && k != []
    requires s.requests[0].key != k && NamePart(s.requests[0].key) == NamePart(k)
    ensures BeginStep(s, url, Post, None, true, Some(k)) ==
      Began(Dispatched(FetchCall(url, Post, None, Some(s.nextSignal))),
            TrackerState([TrackedRequest(s.nextSignal, url, k)], s.aborted + {s.requests[0].signal}, s.nextSignal + 1))
  {
  }
}
