/**
 * Change-only interrupt polling: pollDevice of the Android and macOS InterruptPoller, and the cache
 * filter of the macOS stopPolling. A read that times out or fails yields no bytes.
 */
module InterruptPolling {
  import opened Collections
  import opened Wire

  /** One poll of an endpoint. */
  datatype Read = Read(endpoint: int, data: seq<byte>)

  // ---------- one polling session ----------

  /** The loop body: remember and emit a non-empty read unless it equals the last one remembered. */
  function Changed(last: map<int, seq<byte>>, r: Read): bool {
    r.data != [] && !(r.endpoint in last && last[r.endpoint] == r.data)
  }

  function LastAfter(polls: seq<Read>): map<int, seq<byte>> {
    if polls == [] then map[]
    else
      var n := |polls| - 1;
      var last := LastAfter(polls[..n]);
      if Changed(last, polls[n]) then last[polls[n].endpoint := polls[n].data] else last
  }

  function Emitted(polls: seq<Read>): seq<Read> {
    if polls == [] then []
    else
      var n := |polls| - 1;
      Emitted(polls[..n]) + (if Changed(LastAfter(polls[..n]), polls[n]) then [polls[n]] else [])
  }

  /** pollDevice of InterruptPoller.kt over the polls of one session. */
  method PollDevice(polls: seq<Read>) returns (emitted: seq<Read>)
    ensures emitted == Emitted(polls)
  {
    var lastData: map<int, seq<byte>> := map[];
    emitted := [];
    var i := 0;
    while i < |polls|
      invariant i <= |polls| && lastData == LastAfter(polls[..i]) && emitted == Emitted(polls[..i])
    {
      var r := polls[i];
      assert polls[..i + 1][..i] == polls[..i];
      if |r.data| > 0 {
        if r.endpoint !in lastData || lastData[r.endpoint] != r.data {
          lastData := lastData[r.endpoint := r.data];
          emitted := emitted + [r];
        }
      }
      i := i + 1;
    }
    assert polls[..i] == polls;
  }

  /** The values of one endpoint, in order. */
  function Values(polls: seq<Read>, endpoint: int): seq<seq<byte>> {
    if polls == [] then []
    else
      var n := |polls| - 1;
      Values(polls[..n], endpoint) + (if polls[n].endpoint == endpoint then [polls[n].data] else [])
  }

  function NonEmpty(xs: seq<seq<byte>>): seq<seq<byte>> {
    if xs == [] then []
    else NonEmpty(xs[..|xs| - 1]) + (if xs[|xs| - 1] == [] then [] else [xs[|xs| - 1]])
  }

  /** A list with consecutive repeats removed. */
  function Dedup(xs: seq<seq<byte>>): seq<seq<byte>> {
    if |xs| <= 1 then xs
    else
      var n := |xs| - 1;
      Dedup(xs[..n]) + (if xs[n] == xs[n - 1] then [] else [xs[n]])
  }

  lemma {:induction false} DedupLast(xs: seq<seq<byte>>)
    requires xs != []
    ensures Dedup(xs) != [] && Dedup(xs)[|Dedup(xs)| - 1] == xs[|xs| - 1]
  {
    if |xs| > 1 {
      DedupLast(xs[..|xs| - 1]);
    }
  }

  lemma ValuesSnoc(polls: seq<Read>, r: Read, endpoint: int)
    ensures Values(polls + [r], endpoint) == Values(polls, endpoint) + (if r.endpoint == endpoint then [r.data] else [])
  {
    assert (polls + [r])[..|polls|] == polls;
  }

  lemma NonEmptySnoc(xs: seq<seq<byte>>, x: seq<byte>)
    ensures NonEmpty(xs + [x]) == NonEmpty(xs) + (if x == [] then [] else [x])
  {
    assert (xs + [x])[..|xs|] == xs;
  }

  lemma DedupSnoc(xs: seq<seq<byte>>, x: seq<byte>)
    ensures Dedup(xs + [x]) == if xs != [] && xs[|xs| - 1] == x then Dedup(xs) else Dedup(xs) + [x]
  {
    assert (xs + [x])[..|xs|] == xs;
    if xs != [] && xs[|xs| - 1] == x {
      assert Dedup(xs) + [] == Dedup(xs);
    }
  }

  /** What an endpoint has read so far that was not empty. */
  function Kept(polls: seq<Read>, endpoint: int): seq<seq<byte>> { NonEmpty(Values(polls, endpoint)) }

  lemma KeptSnoc(polls: seq<Read>, r: Read, endpoint: int)
    ensures Kept(polls + [r], endpoint)
            == Kept(polls, endpoint) + (if r.endpoint == endpoint && r.data != [] then [r.data] else [])
  {
    ValuesSnoc(polls, r, endpoint);
    if r.endpoint == endpoint {
      NonEmptySnoc(Values(polls, endpoint), r.data);
    } else {
      assert Values(polls, endpoint) + [] == Values(polls, endpoint);
      assert Kept(polls, endpoint) + [] == Kept(polls, endpoint);
    }
  }

  /** The cache holds each endpoint's last non-empty read. */
  lemma {:induction false} CacheHoldsLast(polls: seq<Read>, endpoint: int)
    ensures var kept := Kept(polls, endpoint);
            && (endpoint in LastAfter(polls) <==> kept != [])
            && (kept != [] ==> LastAfter(polls)[endpoint] == kept[|kept| - 1])
  {
    if polls != [] {
      var n := |polls| - 1;
      CacheHoldsLast(polls[..n], endpoint);
      KeptSnoc(polls[..n], polls[n], endpoint);
      assert polls == polls[..n] + [polls[n]];
      hide Kept;
    }
  }

  lemma EmittedSnoc(polls: seq<Read>, r: Read)
    ensures Emitted(polls + [r]) == Emitted(polls) + (if Changed(LastAfter(polls), r) then [r] else [])
  {
    assert (polls + [r])[..|polls|] == polls;
  }

  lemma EmitStep(polls: seq<Read>, r: Read, endpoint: int)
    requires Values(Emitted(polls), endpoint) == Dedup(Kept(polls, endpoint))
    ensures Values(Emitted(polls + [r]), endpoint) == Dedup(Kept(polls + [r], endpoint))
  {
    hide Emitted, Values, Kept, Dedup, LastAfter;
    var out, kept := Emitted(polls), Kept(polls, endpoint);
    EmittedSnoc(polls, r);
    KeptSnoc(polls, r, endpoint);
    CacheHoldsLast(polls, endpoint);
    DedupSnoc(kept, r.data);
    ValuesSnoc(out, r, endpoint);
    assert out + [] == out && kept + [] == kept && Values(out, endpoint) + [] == Values(out, endpoint);
  }

  /** For every trace, what an endpoint emits is its non-empty reads with consecutive repeats removed. */
  lemma {:induction false} EmitsChanges(polls: seq<Read>, endpoint: int)
    ensures Values(Emitted(polls), endpoint) == Dedup(Kept(polls, endpoint))
  {
    if polls != [] {
      hide Dedup, NonEmpty, Values, Emitted, Kept;
      var n := |polls| - 1;
      assert polls == polls[..n] + [polls[n]];
      EmitsChanges(polls[..n], endpoint);
      EmitStep(polls[..n], polls[n], endpoint);
    }
  }

  /** The last value emitted for an endpoint is its last non-empty read: a listener is never behind. */
  lemma ListenerIsUpToDate(polls: seq<Read>, endpoint: int)
    requires Kept(polls, endpoint) != []
    ensures var out, kept := Values(Emitted(polls), endpoint), Kept(polls, endpoint);
            out != [] && out[|out| - 1] == kept[|kept| - 1]
  {
    hide Emitted, Values, Kept, Dedup;
    EmitsChanges(polls, endpoint);
    DedupLast(Kept(polls, endpoint));
  }

  // ---------- decimal keys ----------

  predicate IsDigit(c: char) { '0' <= c <= '9' }

  function Digits(n: nat): (r: string)
    ensures |r| >= 1 && forall i :: 0 <= i < |r| ==> IsDigit(r[i])
  {
    if n < 10 then ['0' + n as char] else Digits(n / 10) + ['0' + (n % 10) as char]
  }

  function ValueOf(s: string): int {
    if s == [] then 0 else 10 * ValueOf(s[..|s| - 1]) + (s[|s| - 1] as int - '0' as int)
  }

  lemma {:induction false} ValueOfDigits(n: nat)
    ensures ValueOf(Digits(n)) == n
  {
    if n >= 10 {
      ValueOfDigits(n / 10);
      assert Digits(n)[..|Digits(n)| - 1] == Digits(n / 10);
    } else {
      assert Digits(n)[..0] == [];
    }
  }

  /** String interpolation of an Int. */
  function Decimal(n: int): (r: string)
    ensures |r| >= 1 && forall i :: 1 <= i < |r| ==> IsDigit(r[i])
  {
    if n < 0 then "-" + Digits(-n) else Digits(n)
  }

  function Parsed(s: string): int
    requires s != []
  {
    if s[0] == '-' then -ValueOf(s[1..]) else ValueOf(s)
  }

  lemma ParsedDecimal(n: int)
    ensures Parsed(Decimal(n)) == n
  {
    if n < 0 {
      ValueOfDigits(-n);
      assert Decimal(n)[1..] == Digits(-n);
    } else {
      ValueOfDigits(n);
    }
  }

  lemma DecimalInjective(a: int, b: int)
    requires Decimal(a) == Decimal(b)
    ensures a == b
  {
    ParsedDecimal(a);
    ParsedDecimal(b);
  }

  function Prefix(device: int): string { Decimal(device) + "-" }

  /** "\\(deviceId)-\\(endpoint.address)" */
  function Key(device: int, endpoint: int): string { Prefix(device) + Decimal(endpoint) }

  /** The filter in stopPolling matches exactly the keys of that device, for ids of either sign. */
  lemma PrefixMatchesDevice(device: int, other: int, endpoint: int)
    ensures Prefix(device) <= Key(other, endpoint) <==> device == other
  {
    var a, b, key := Decimal(device), Decimal(other), Key(other, endpoint);
    if Prefix(device) <= key {
      assert key[|a|] == Prefix(device)[|a|] == '-';
      assert key[|b|] == '-';
      assert |a| == |b|;
      assert a == key[..|a|] == b;
      DecimalInjective(device, other);
    }
  }

  lemma KeyInjective(d: int, e: int, d': int, e': int)
    requires Key(d, e) == Key(d', e')
    ensures d == d' && e == e'
  {
    PrefixMatchesDevice(d, d', e');
    var n := |Prefix(d)|;
    assert Key(d, e)[n..] == Decimal(e) && Key(d', e')[n..] == Decimal(e');
    DecimalInjective(e, e');
  }

  // ---------- the two implementations over any schedule ----------

  datatype Event = Started(device: int) | Polled(device: int, read: Read) | Stopped(device: int)

  datatype Output = Output(device: int, read: Read)

  /** InterruptPoller.kt: one cache per session, created when polling starts. */
  function KotlinStep(sessions: map<int, map<int, seq<byte>>>, e: Event): (map<int, map<int, seq<byte>>>, seq<Output>) {
    match e
    case Started(d) => (if d in sessions then sessions else sessions[d := map[]], [])
    case Stopped(d) => (sessions - {d}, [])
    case Polled(d, r) =>
      if d in sessions && Changed(sessions[d], r) then
        (sessions[d := sessions[d][r.endpoint := r.data]], [Output(d, r)])
      else (sessions, [])
  }

  datatype Swift = Swift(polling: set<int>, lastData: map<string, seq<byte>>)

  function Filtered(lastData: map<string, seq<byte>>, prefix: string): map<string, seq<byte>> {
    map k | k in lastData && !(prefix <= k) :: lastData[k]
  }

  /** InterruptPoller.swift: one shared cache under decimal keys, filtered when polling stops. */
  function SwiftStep(s: Swift, e: Event): (Swift, seq<Output>) {
    match e
    case Started(d) => (s.(polling := s.polling + {d}), [])
    case Stopped(d) => (Swift(s.polling - {d}, Filtered(s.lastData, Prefix(d))), [])
    case Polled(d, r) =>
      var key := Key(d, r.endpoint);
      if d in s.polling && r.data != [] && !(key in s.lastData && s.lastData[key] == r.data) then
        (s.(lastData := s.lastData[key := r.data]), [Output(d, r)])
      else (s, [])
  }

  function KotlinRun(sessions: map<int, map<int, seq<byte>>>, events: seq<Event>): seq<Output>
    decreases |events|
  {
    if events == [] then []
    else var (next, out) := KotlinStep(sessions, events[0]); out + KotlinRun(next, events[1..])
  }

  function SwiftRun(s: Swift, events: seq<Event>): seq<Output>
    decreases |events|
  {
    if events == [] then []
    else var (next, out) := SwiftStep(s, events[0]); out + SwiftRun(next, events[1..])
  }

  function KotlinState(events: seq<Event>): map<int, map<int, seq<byte>>> {
    if events == [] then map[] else KotlinStep(KotlinState(events[..|events| - 1]), events[|events| - 1]).0
  }

  /** What has been read from a device since its polling started; None when it is not being polled. */
  function Session(events: seq<Event>, device: int): Option<seq<Read>> {
    if events == [] then None
    else
      var e, before := events[|events| - 1], Session(events[..|events| - 1], device);
      if e.device != device then before
      else
        match e
        case Started(_) => if before.None? then Some([]) else before
        case Stopped(_) => None
        case Polled(_, r) => if before.None? then None else Some(before.value + [r])
  }

  /** In any schedule, a device's cache is the one its own session alone would have built. */
  lemma {:induction false} SessionsAreIndependent(events: seq<Event>, device: int)
    ensures device in KotlinState(events) <==> Session(events, device).Some?
    ensures device in KotlinState(events) ==>
              KotlinState(events)[device] == LastAfter(Session(events, device).value)
  {
    if events != [] {
      var n := |events| - 1;
      SessionsAreIndependent(events[..n], device);
      var e, before := events[n], Session(events[..n], device);
      if e.device == device && e.Polled? && before.Some? {
        assert (before.value + [e.read])[..|before.value|] == before.value;
      }
    }
  }

  /** The shared cache holds, under each device's keys, what that device's session holds. */
  ghost predicate Matches(sessions: map<int, map<int, seq<byte>>>, s: Swift) {
    && s.polling == sessions.Keys
    && (forall d, e :: Key(d, e) in s.lastData <==> d in sessions && e in sessions[d])
    && (forall d, e :: d in sessions && e in sessions[d] ==>
          Key(d, e) in s.lastData && s.lastData[Key(d, e)] == sessions[d][e])
  }

  lemma StopMatches(sessions: map<int, map<int, seq<byte>>>, s: Swift, d: int)
    requires Matches(sessions, s)
    ensures Matches(sessions - {d}, SwiftStep(s, Stopped(d)).0)
  {
    var s' := SwiftStep(s, Stopped(d)).0;
    forall d', e
      ensures Key(d', e) in s'.lastData <==> d' in sessions && d' != d && e in sessions[d']
    {
      PrefixMatchesDevice(d, d', e);
    }
  }

  lemma PollMatches(sessions: map<int, map<int, seq<byte>>>, s: Swift, d: int, r: Read)
    requires Matches(sessions, s)
    ensures KotlinStep(sessions, Polled(d, r)).1 == SwiftStep(s, Polled(d, r)).1
    ensures Matches(KotlinStep(sessions, Polled(d, r)).0, SwiftStep(s, Polled(d, r)).0)
  {
    var k', s' := KotlinStep(sessions, Polled(d, r)).0, SwiftStep(s, Polled(d, r)).0;
    if d in sessions && Changed(sessions[d], r) {
      var key := Key(d, r.endpoint);
      forall d', e
        ensures Key(d', e) == key ==> d' == d && e == r.endpoint
      {
        if Key(d', e) == key {
          KeyInjective(d', e, d, r.endpoint);
        }
      }
    }
  }

  /** Over every schedule of starts, polls and stops of any devices, both clients emit the same. */
  lemma {:induction false} SameEmissions(sessions: map<int, map<int, seq<byte>>>, s: Swift, events: seq<Event>)
    requires Matches(sessions, s)
    ensures KotlinRun(sessions, events) == SwiftRun(s, events)
    decreases |events|
  {
    if events != [] {
      match events[0] {
        case Started(d) =>
        case Stopped(d) => StopMatches(sessions, s, d);
        case Polled(d, r) => PollMatches(sessions, s, d, r);
      }
      SameEmissions(KotlinStep(sessions, events[0]).0, SwiftStep(s, events[0]).0, events[1..]);
    }
  }

  /** In particular from the empty start. */
  lemma SameEmissionsFromStart(events: seq<Event>)
    ensures KotlinRun(map[], events) == SwiftRun(Swift({}, map[]), events)
  {
    SameEmissions(map[], Swift({}, map[]), events);
  }

  // ---------- what a listener hears of one device ----------

  function Own(e: Event, device: int): seq<Read> { if e.Polled? && e.device == device then [e.read] else [] }

  function PollsOf(events: seq<Event>, device: int): seq<Read> {
    if events == [] then [] else Own(events[0], device) + PollsOf(events[1..], device)
  }

  function Heard(out: seq<Output>, device: int): seq<Read> {
    if out == [] then [] else (if out[0].device == device then [out[0].read] else []) + Heard(out[1..], device)
  }

  lemma {:induction false} HeardConcat(a: seq<Output>, b: seq<Output>, device: int)
    ensures Heard(a + b, device) == Heard(a, device) + Heard(b, device)
  {
    if a == [] {
      assert a + b == b && Heard(a, device) == [];
      hide Heard;
    } else {
      HeardStep(a[0], a[1..], device);
      HeardStep(a[0], a[1..] + b, device);
      hide Heard;
      assert a == [a[0]] + a[1..];
      Associative([a[0]], a[1..], b);
      HeardConcat(a[1..], b, device);
      Associative(if a[0].device == device then [a[0].read] else [], Heard(a[1..], device), Heard(b, device));
    }
  }

  lemma HeardStep(o: Output, rest: seq<Output>, device: int)
    ensures Heard([o] + rest, device) == (if o.device == device then [o.read] else []) + Heard(rest, device)
  {
    assert ([o] + rest)[1..] == rest;
  }

  predicate Unstopped(events: seq<Event>, device: int) {
    forall i :: 0 <= i < |events| ==> events[i] != Stopped(device)
  }

  /** In a session that has read `polls` so far, the rest of any schedule emits what the polls so far lack. */
  lemma {:induction false} SessionEmits(sessions: map<int, map<int, seq<byte>>>, events: seq<Event>, device: int, polls: seq<Read>)
    requires device in sessions && sessions[device] == LastAfter(polls) && Unstopped(events, device)
    ensures Emitted(polls + PollsOf(events, device)) == Emitted(polls) + Heard(KotlinRun(sessions, events), device)
    decreases |events|
  {
    hide Emitted, LastAfter, KotlinStep, Own;
    if events == [] {
      assert polls + [] == polls && Emitted(polls) + [] == Emitted(polls);
    } else {
      var e, rest := events[0], events[1..];
      var next, out := KotlinStep(sessions, e).0, KotlinStep(sessions, e).1;
      var more := Own(e, device);
      assert KotlinRun(sessions, events) == out + KotlinRun(next, rest);
      hide Heard, KotlinRun, PollsOf;
      PollsStep(polls, events, device);
      SessionStep(sessions, e, device, polls);
      assert Unstopped(rest, device);
      SessionEmits(next, rest, device, polls + more);
      HeardConcat(out, KotlinRun(next, rest), device);
    }
  }

  lemma PollsStep(polls: seq<Read>, events: seq<Event>, device: int)
    requires events != []
    ensures polls + PollsOf(events, device) == polls + Own(events[0], device) + PollsOf(events[1..], device)
  {
  }

  lemma SessionStep(sessions: map<int, map<int, seq<byte>>>, e: Event, device: int, polls: seq<Read>)
    requires device in sessions && sessions[device] == LastAfter(polls) && e != Stopped(device)
    ensures var (next, out) := KotlinStep(sessions, e);
            && device in next && next[device] == LastAfter(polls + Own(e, device))
            && Emitted(polls + Own(e, device)) == Emitted(polls) + Heard(out, device)
  {
    if e.Polled? && e.device == device {
      assert (polls + [e.read])[..|polls|] == polls;
    } else {
      assert polls + [] == polls && Emitted(polls) + [] == Emitted(polls);
    }
  }

  lemma {:induction false} RunFrom(before: seq<Event>, events: seq<Event>)
    ensures KotlinRun(map[], before + events) == KotlinRun(map[], before) + KotlinRun(KotlinState(before), events)
    decreases |before|
  {
    if before == [] {
      assert before + events == events;
    } else {
      var n := |before| - 1;
      var init, e := before[..n], before[n];
      StepOf(KotlinState(init), e, events);
      StepOf(KotlinState(init), e, []);
      assert KotlinState(before) == KotlinStep(KotlinState(init), e).0;
      hide KotlinRun, KotlinState, KotlinStep;
      assert before == init + [e] && [e] + [] == [e];
      Associative(init, [e], events);
      RunFrom(init, [e] + events);
      RunFrom(init, [e]);
      var out := KotlinStep(KotlinState(init), e).1;
      assert out + [] == out;
      Associative(KotlinRun(map[], init), out, KotlinRun(KotlinState(before), events));
    }
  }

  lemma StepOf(sessions: map<int, map<int, seq<byte>>>, e: Event, events: seq<Event>)
    ensures KotlinRun(sessions, [e] + events)
            == KotlinStep(sessions, e).1 + KotlinRun(KotlinStep(sessions, e).0, events)
    ensures events == [] ==> KotlinRun(KotlinStep(sessions, e).0, events) == []
  {
    assert ([e] + events)[1..] == events;
  }

  /**
   * The schedule-level theorem: from the moment a device's polling starts, as long as it is not stopped and
   * whatever happens to other devices, both clients emit for it exactly the changes among its own reads.
   */
  lemma SessionHearsItsChanges(before: seq<Event>, events: seq<Event>, device: int)
    requires Session(before, device).None? && Unstopped(events, device)
    ensures var earlier, all := before + [Started(device)], before + [Started(device)] + events;
            && KotlinRun(map[], earlier) <= KotlinRun(map[], all)
            && SwiftRun(Swift({}, map[]), all) == KotlinRun(map[], all)
            && Heard(KotlinRun(map[], all)[|KotlinRun(map[], earlier)|..], device) == Emitted(PollsOf(events, device))
  {
    var earlier := before + [Started(device)];
    SessionsAreIndependent(before, device);
    assert earlier[..|before|] == before;
    assert KotlinState(earlier) == KotlinState(before)[device := map[]];
    RunFrom(earlier, events);
    SessionEmits(KotlinState(earlier), events, device, []);
    assert [] + PollsOf(events, device) == PollsOf(events, device);
    SameEmissionsFromStart(earlier + events);
  }

  /** stopPolling forgets exactly that device: every other device's cache entries stay as they were. */
  lemma StopForgetsOnlyItsDevice(s: Swift, d: int, other: int, endpoint: int)
    ensures var after, key := SwiftStep(s, Stopped(d)).0.lastData, Key(other, endpoint);
            && (key in after <==> key in s.lastData && other != d)
            && (key in after ==> after[key] == s.lastData[key])
  {
    PrefixMatchesDevice(d, other, endpoint);
  }

  /** The macOS poller's fields. */
  class SwiftPoller {
    var polling: set<int>
    var lastData: map<string, seq<byte>>

    ghost function Model(): Swift
      reads this
    {
      Swift(polling, lastData)
    }

    constructor ()
      ensures Model() == Swift({}, map[])
    {
      polling, lastData := {}, map[];
    }

    method StartPolling(device: int)
      modifies this
      ensures Model() == SwiftStep(old(Model()), Started(device)).0
    {
      polling := polling + {device};
    }

    method StopPolling(device: int)
      modifies this
      ensures Model() == SwiftStep(old(Model()), Stopped(device)).0
    {
      polling := polling - {device};
      lastData := Filtered(lastData, Prefix(device));
    }

    /** The body of the polling loop. */
    method Poll(device: int, r: Read) returns (out: seq<Output>)
      modifies this
      ensures (Model(), out) == SwiftStep(old(Model()), Polled(device, r))
    {
      out := [];
      if device in polling && |r.data| > 0 {
        var cacheKey := Key(device, r.endpoint);
        var shouldEmit := true;
        if cacheKey in lastData && lastData[cacheKey] == r.data {
          shouldEmit := false;
        } else {
          lastData := lastData[cacheKey := r.data];
        }
        if shouldEmit {
          out := [Output(device, r)];
        }
      }
    }
  }
}
