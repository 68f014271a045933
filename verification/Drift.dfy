/**
 opsnotify/drift.go: alarms that fire once per episode over a marker with no delete. The
 same rule watches two conditions: the head of main cannot be read ("blind"), and the
 project to compare against is not configured ("dark").
 */
module Drift {
  import opened Wrappers
  import opened Sorting
  import opened Text
  import AM = AlertMarker

  /** One tick. A disabled one looks at nothing; on a good one the marker of an alarm still
      standing is overwritten with `clear`. */
  datatype Tick =
    | Disabled
    | Bad(f: AM.Faults)
    | Good(readOk: bool, writeOk: bool, clear: string)

  datatype State = State(token: Option<string>, alerts: nat)

  const BlindKey := "builddrift-source"
  const DarkKey := "builddrift-config"
  const Blind := "blind"
  const Dark := "dark"
  const Readable := "readable"

  function Token(raw: Option<string>, readOk: bool): string {
    if readOk && raw.Some? then TrimSpace(raw.value) else ""
  }

  function Step(s: State, bad: string, t: Tick): State {
    match t
    case Disabled => s
    case Bad(f) =>
      if Token(s.token, f.readOk) == bad || !f.sendOk then s
      else State(if f.dies || !f.writeOk then s.token else Some(bad), s.alerts + 1)
    case Good(readOk, writeOk, clear) =>
      if Token(s.token, readOk) == bad && writeOk then s.(token := Some(clear)) else s
  }

  function Run(bad: string, ticks: seq<Tick>): State {
    if ticks == [] then State(None, 0)
    else Step(Run(bad, ticks[..|ticks| - 1]), bad, ticks[|ticks| - 1])
  }

  /** The marker and the alarms sent, as one key of the store and the channel shows them. */
  function View(blobs: map<string, string>, delivered: seq<AM.Delivery>, key: string): State {
    State(if key in blobs then Some(blobs[key]) else None, |AM.NotesFor(delivered, key)|)
  }

  /** The unreadable half of `handleDrift` and the unset half of `handleDriftConfig`. */
  method Alarm(markers: AM.Marker, channel: AM.Channel, key: string, bad: string, f: AM.Faults)
    requires markers.store as object? != channel && bad != ""
    modifies markers.store, channel
    ensures markers.store != null ==>
      View(markers.store.blobs, channel.delivered, key) ==
      old(Step(View(markers.store.blobs, channel.delivered, key), bad, Bad(f)))
    ensures markers.store == null ==>
      channel.delivered == old(channel.delivered) + if f.sendOk then [AM.Delivery(key, bad)] else []
  {
    var prev := markers.Token(key, f.readOk);
    if prev == Some(bad) { return; }
    AM.NotesForAppend(channel.delivered, AM.Delivery(key, bad), key);
    var _ := markers.Send(key, bad, channel, f);
  }

  /** `clearBlindMarker`, and the restored half of `handleDriftConfig`. */
  method Clear(markers: AM.Marker, channel: AM.Channel, key: string, bad: string, clear: string,
               readOk: bool, writeOk: bool)
    requires markers.store as object? != channel && bad != ""
    modifies markers.store
    ensures markers.store != null ==>
      View(markers.store.blobs, channel.delivered, key) ==
      old(Step(View(markers.store.blobs, channel.delivered, key), bad, Good(readOk, writeOk, clear)))
  {
    var prev := markers.Token(key, readOk);
    if prev == Some(bad) { markers.Record(key, clear, writeOk); }
  }

  // ---------------------------------------------------------------- episodes

  /** Some tick satisfying `p` has not been followed by one satisfying `q`. */
  predicate Since(p: Tick -> bool, q: Tick -> bool, ticks: seq<Tick>) {
    if ticks == [] then false
    else
      var t := ticks[|ticks| - 1];
      p(t) || (!q(t) && Since(p, q, ticks[..|ticks| - 1]))
  }

  predicate NoneAfter(q: Tick -> bool, ticks: seq<Tick>, i: nat) {
    forall k :: i < k < |ticks| ==> !q(ticks[k])
  }

  lemma {:induction false} SinceMeans(p: Tick -> bool, q: Tick -> bool, ticks: seq<Tick>)
    ensures Since(p, q, ticks) <==>
      exists i :: 0 <= i < |ticks| && p(ticks[i]) && NoneAfter(q, ticks, i)
  {
    if ticks != [] {
      var n := |ticks| - 1;
      var init := ticks[..n];
      SinceMeans(p, q, init);
      if p(ticks[n]) {
        assert NoneAfter(q, ticks, n);
      } else {
        assert forall i :: 0 <= i < n ==> init[i] == ticks[i];
        if Since(p, q, ticks) {
          var i :| 0 <= i < n && p(init[i]) && NoneAfter(q, init, i);
          forall k | i < k < |ticks| ensures !q(ticks[k]) { if k < n { assert init[k] == ticks[k]; } }
          assert p(ticks[i]) && NoneAfter(q, ticks, i);
        }
        if i :| 0 <= i < |ticks| && p(ticks[i]) && NoneAfter(q, ticks, i) {
          assert forall k :: 0 <= k < n ==> init[k] == ticks[k];
          assert i < n && p(init[i]) && NoneAfter(q, init, i) && !q(ticks[n]);
        }
      }
    }
  }

  /** An alarm was taken by the channel and its marker was written. */
  predicate Marks(t: Tick) { t.Bad? && t.f.sendOk && !t.f.dies && t.f.writeOk }

  predicate Clears(t: Tick) { t.Good? && t.readOk && t.writeOk }

  predicate ClearsDiffer(bad: string, ticks: seq<Tick>) {
    forall i :: 0 <= i < |ticks| && ticks[i].Good? ==> TrimSpace(ticks[i].clear) != bad
  }

  predicate Standing(s: State, bad: string) { Token(s.token, true) == bad }

  /** The marker says the alarm stands exactly when an alarm was recorded and no good tick
      since managed to clear it, whatever failed. */
  lemma {:induction false} MarkerStandsExactly(bad: string, ticks: seq<Tick>)
    requires bad != "" && TrimSpace(bad) == bad && ClearsDiffer(bad, ticks)
    ensures Standing(Run(bad, ticks), bad) <==> Since(Marks, Clears, ticks)
  {
    if ticks != [] {
      var init := ticks[..|ticks| - 1];
      assert forall i :: 0 <= i < |init| ==> init[i] == ticks[i];
      MarkerStandsExactly(bad, init);
    }
  }

  predicate EverMarked(ticks: seq<Tick>) { exists i :: 0 <= i < |ticks| && Marks(ticks[i]) }

  predicate IsClearText(t: Tick, text: string) { t.Good? && t.clear == text }

  predicate SomeClearText(ticks: seq<Tick>, text: string) {
    exists i :: 0 <= i < |ticks| && IsClearText(ticks[i], text)
  }

  /** A marker is never removed: there is one exactly when an alarm was ever recorded, and it
      holds the alarm's text or that of a tick that cleared it. */
  lemma {:induction false} MarkerIsNeverRemoved(bad: string, ticks: seq<Tick>)
    requires bad != ""
    ensures var token := Run(bad, ticks).token;
      && (token.Some? <==> EverMarked(ticks))
      && (token.Some? && token.value != bad ==> SomeClearText(ticks, token.value))
  {
    if ticks != [] {
      var n := |ticks| - 1;
      var init := ticks[..n];
      MarkerIsNeverRemoved(bad, init);
      assert EverMarked(ticks) <==> EverMarked(init) || Marks(ticks[n]) by {
        assert forall i :: 0 <= i < n ==> init[i] == ticks[i];
      }
      var was, token := Run(bad, init).token, Run(bad, ticks).token;
      if token.Some? && token.value != bad {
        if token == was {
          var i :| 0 <= i < n && IsClearText(init[i], token.value);
          assert IsClearText(ticks[i], token.value);
        } else {
          assert IsClearText(ticks[n], token.value);
        }
      }
    }
  }

  /** A bad tick stays silent exactly when its marker read works and shows a standing alarm:
      one recorded earlier that every good tick since failed to read or to overwrite. So an
      outage is swallowed whole exactly when the last alarm's marker was never cleared. */
  lemma SilentExactlyWhenNeverCleared(bad: string, ticks: seq<Tick>, f: AM.Faults)
    requires bad != "" && TrimSpace(bad) == bad && ClearsDiffer(bad, ticks) && f.sendOk
    ensures Step(Run(bad, ticks), bad, Bad(f)).alerts == Run(bad, ticks).alerts <==>
      f.readOk &&
      exists i :: 0 <= i < |ticks| && Marks(ticks[i]) && NoneAfter(Clears, ticks, i)
  {
    MarkerStandsExactly(bad, ticks);
    SinceMeans(Marks, Clears, ticks);
  }

  /** A failed send changes nothing. */
  lemma FailedSendRetries(s: State, bad: string, f: AM.Faults)
    requires !f.sendOk
    ensures Step(s, bad, Bad(f)) == s
  {
  }

  predicate Rejected(t: Tick) { t.Bad? && !t.f.sendOk }

  /** A run with rejected sends is the run without them, so the same outage is tried again at
      every later tick as if for the first time: the first accepted send of an outage alerts
      however many were rejected before it. */
  lemma {:induction false} RejectedSendsOnlyDelay(bad: string, ticks: seq<Tick>)
    ensures Run(bad, ticks) == Run(bad, Filter((t: Tick) => !Rejected(t), ticks))
  {
    if ticks != [] {
      var init, last := ticks[..|ticks| - 1], ticks[|ticks| - 1];
      RejectedSendsOnlyDelay(bad, init);
      var kept := Filter((t: Tick) => !Rejected(t), init);
      if Rejected(last) {
        FailedSendRetries(Run(bad, init), bad, last.f);
        assert kept + [] == kept;
      } else {
        assert (kept + [last])[..|kept|] == kept;
      }
    }
  }

  // ---------------------------------------------------------------- once per outage

  predicate Heard(t: Tick) { t.Bad? && t.f.sendOk }

  predicate IsGood(t: Tick) { t.Good? }

  predicate IsBad(t: Tick) { t.Bad? }

  predicate ReliableMarkers(ticks: seq<Tick>) {
    forall i :: 0 <= i < |ticks| ==>
      (ticks[i].Bad? ==> ticks[i].f.Reliable()) && (ticks[i].Good? ==> ticks[i].readOk && ticks[i].writeOk)
  }

  /** How many maximal stretches without a good tick hold at least one tick with `p`,
      counted where each one first has it. Disabled ticks do not end a stretch. */
  function StretchesWith(p: Tick -> bool, ticks: seq<Tick>): nat {
    if ticks == [] then 0
    else
      var init := ticks[..|ticks| - 1];
      StretchesWith(p, init) + if p(ticks[|ticks| - 1]) && !Since(p, IsGood, init) then 1 else 0
  }

  /** With markers that work, each outage that reached the channel at all alerts exactly once. */
  lemma {:induction false} OneAlarmPerOutage(bad: string, ticks: seq<Tick>)
    requires bad != "" && TrimSpace(bad) == bad && ClearsDiffer(bad, ticks) && ReliableMarkers(ticks)
    ensures Run(bad, ticks).alerts == StretchesWith(Heard, ticks)
    ensures Standing(Run(bad, ticks), bad) <==> Since(Heard, IsGood, ticks)
  {
    if ticks != [] {
      var init := ticks[..|ticks| - 1];
      assert forall i :: 0 <= i < |init| ==> init[i] == ticks[i];
      OneAlarmPerOutage(bad, init);
    }
  }

  /** When every send works too, that is one alarm per maximal stretch of bad ticks. */
  lemma EveryOutageAlarms(bad: string, ticks: seq<Tick>)
    requires bad != "" && TrimSpace(bad) == bad && ClearsDiffer(bad, ticks) && ReliableMarkers(ticks)
    requires forall i :: 0 <= i < |ticks| && ticks[i].Bad? ==> ticks[i].f.sendOk
    ensures Run(bad, ticks).alerts == StretchesWith(IsBad, ticks)
  {
    OneAlarmPerOutage(bad, ticks);
    SameStretches(ticks);
  }

  lemma {:induction false} SameStretches(ticks: seq<Tick>)
    requires forall i :: 0 <= i < |ticks| && ticks[i].Bad? ==> ticks[i].f.sendOk
    ensures StretchesWith(IsBad, ticks) == StretchesWith(Heard, ticks)
    ensures Since(IsBad, IsGood, ticks) == Since(Heard, IsGood, ticks)
  {
    if ticks != [] { SameStretches(ticks[..|ticks| - 1]); }
  }

  /** Both alarms meet the conditions on their texts: the blind one always, the dark one
      exactly when no configured project is itself called "dark". */
  lemma TokensAreSound(project: string)
    ensures TrimSpace(Blind) == Blind && TrimSpace(Dark) == Dark && TrimSpace(Readable) != Blind
    ensures ClearsDiffer(Dark, [Good(true, true, project)]) <==> TrimSpace(project) != Dark
  {
    assert TrimLeft(Blind) == Blind && TrimLeft(Dark) == Dark && TrimLeft(Readable) == Readable;
    assert TrimRight(Blind) == Blind && TrimRight(Dark) == Dark && TrimRight(Readable) == Readable;
    assert [Good(true, true, project)][0] == Good(true, true, project);
  }

  /** One clear that fails is enough to lose the next outage, over sends that never fail. */
  lemma FailedClearSwallowsTheNextOutage()
    ensures var ok := AM.Faults(true, true, false, true);
      var ticks := [Bad(ok), Good(true, false, Readable), Bad(ok)];
      Run(Blind, ticks).alerts == 1 && StretchesWith(IsBad, ticks) == 2
  {
    var ok := AM.Faults(true, true, false, true);
    var a, b, c := Bad(ok), Good(true, false, Readable), Bad(ok);
    TokensAreSound("");
    assert [a, b, c][..2] == [a, b] && [a, b][..1] == [a] && [a][..0] == [];
    assert Run(Blind, [a]) == State(Some(Blind), 1);
    assert Run(Blind, [a, b]) == State(Some(Blind), 1);
    assert StretchesWith(IsBad, [a]) == 1 && !Since(IsBad, IsGood, [a, b]);
    assert StretchesWith(IsBad, [a, b]) == 1;
  }

  // ---------------------------------------------------------------- the drift alarm itself

  const DriftKey := "builddrift"

  const Grace := 1800

  /** What one tick sees: the head of main and its date (None cannot be read), and the newest
      built commit, empty when none ever built. */
  datatype Look = Look(head: string, headAt: Option<int>, built: string, now: int)

  /** `opsalert.Check`: main has carried an unbuilt commit for longer than a build takes. */
  predicate Drifted(l: Look) {
    l.head != "" && l.headAt.Some? && l.head != l.built && l.now - l.headAt.value >= Grace
  }

  predicate NeedsAlert(built: string, prev: string) {
    if prev == "" then true else if built == "" then false else built != prev
  }

  function AlertToken(built: string): string { if built == "" then "none" else built }

  /** One tick, over the marker store and the channel. */
  function Watch(w: AM.World, l: Look, f: AM.Faults): AM.World {
    var tok := AM.TokenOf(w.blobs, DriftKey, f.readOk);
    if !Drifted(l) || !NeedsAlert(l.built, if tok.Some? then tok.value else "") then w
    else AM.Apply(w, AM.Op(AM.Always, DriftKey, AlertToken(l.built)), f)
  }

  /** The last part of `handleDrift`. */
  method HandleDrift(markers: AM.Marker, channel: AM.Channel, l: Look, f: AM.Faults)
    requires markers.store as object? != channel
    modifies markers.store, channel
    ensures markers.store != null ==>
      AM.World(markers.store.blobs, channel.delivered) ==
      old(Watch(AM.World(markers.store.blobs, channel.delivered), l, f))
    ensures markers.store == null ==>
      channel.delivered == old(channel.delivered) +
        if Drifted(l) && f.sendOk then [AM.Delivery(DriftKey, AlertToken(l.built))] else []
  {
    if l.head == "" || l.headAt.None? || l.head == l.built { return; }
    if l.now - l.headAt.value < Grace { return; }
    var tok := markers.Token(DriftKey, f.readOk);
    var prev := if tok.Some? then tok.value else "";
    if !NeedsAlert(l.built, prev) { return; }
    var _ := markers.Send(DriftKey, AlertToken(l.built), channel, f);
  }

  function WatchAll(looks: seq<Look>, f: AM.Faults): AM.World {
    if looks == [] then AM.Fresh else Watch(WatchAll(looks[..|looks| - 1], f), looks[|looks| - 1], f)
  }

  /** The built commits of the findings, in order. */
  function Baselines(looks: seq<Look>): seq<string> {
    if looks == [] then []
    else
      Baselines(looks[..|looks| - 1]) + if Drifted(looks[|looks| - 1]) then [looks[|looks| - 1].built] else []
  }

  /** A sequence with every run of equal neighbours shrunk to one. */
  function Collapse(s: seq<string>): seq<string> {
    if |s| <= 1 then s
    else if s[0] == s[1] then Collapse(s[1..])
    else [s[0]] + Collapse(s[1..])
  }

  /** The baselines that can be news: the first whatever it is, then those that can be seen. */
  function Visible(builts: seq<string>): seq<string> {
    if builts == [] then []
    else [AlertToken(builts[0])] + Filter((b: string) => b != "", builts[1..])
  }

  lemma {:induction false} CollapseAppend(s: seq<string>, x: string)
    ensures Collapse(s + [x]) ==
      if s != [] && s[|s| - 1] == x then Collapse(s) else Collapse(s) + [x]
    ensures s != [] ==> Collapse(s) != [] && Collapse(s)[|Collapse(s)| - 1] == s[|s| - 1]
  {
    if |s| > 1 {
      assert (s + [x])[1..] == s[1..] + [x];
      CollapseAppend(s[1..], x);
    }
  }

  lemma VisibleAppend(builts: seq<string>, b: string)
    ensures Visible(builts + [b]) ==
      if builts == [] then [AlertToken(b)] else if b == "" then Visible(builts) else Visible(builts) + [b]
  {
    if builts == [] {
      assert (builts + [b])[1..] == [];
    } else {
      assert (builts + [b])[1..] == builts[1..] + [b];
      assert (builts[1..] + [b])[..|builts[1..]|] == builts[1..];
    }
  }

  /** A commit id has no white space around it. */
  predicate Trimmed(looks: seq<Look>) {
    forall i :: 0 <= i < |looks| ==> TrimSpace(looks[i].built) == looks[i].built
  }

  function Last(s: seq<string>): string { if s == [] then "" else s[|s| - 1] }

  function Told(builts: seq<string>): seq<string> { Collapse(Visible(builts)) }

  /** Whether one more finding is news is whether its baseline extends what was told. */
  lemma NewsExtendsWhatWasTold(builts: seq<string>, b: string)
    ensures Told(builts + [b]) ==
      if NeedsAlert(b, Last(Told(builts))) then Told(builts) + [AlertToken(b)] else Told(builts)
    ensures builts != [] ==> Told(builts) != []
  {
    VisibleAppend(builts, b);
    VisibleNonBlank(builts);
    CollapseAppend(Visible(builts), AlertToken(b));
  }

  /** The channel and the marker show what was told. */
  ghost predicate Shows(w: AM.World, told: seq<string>) {
    && AM.NotesFor(w.delivered, DriftKey) == told
    && AM.TokenOf(w.blobs, DriftKey, true) == (if told == [] then None else Some(Last(told)))
  }

  lemma WatchTells(w: AM.World, l: Look, f: AM.Faults, told: seq<string>)
    requires Shows(w, told) && f.Reliable() && f.sendOk && TrimSpace(l.built) == l.built
    ensures Shows(Watch(w, l, f),
                  if Drifted(l) && NeedsAlert(l.built, Last(told)) then told + [AlertToken(l.built)] else told)
  {
    NoneIsTrimmed();
    AM.NotesForAppend(w.delivered, AM.Delivery(DriftKey, AlertToken(l.built)), DriftKey);
  }

  /** With markers and sends that work, the alarms are exactly the baselines the findings were
      made against, each told once for as long as it stands: the head may move at every tick
      and sight of the builds may be lost, and neither adds an alarm; a new baseline does. */
  lemma {:induction false} OneDriftAlarmPerBaseline(looks: seq<Look>, f: AM.Faults)
    requires f.Reliable() && f.sendOk && Trimmed(looks)
    ensures Shows(WatchAll(looks, f), Collapse(Visible(Baselines(looks))))
  {
    if looks != [] {
      var init, l := looks[..|looks| - 1], looks[|looks| - 1];
      OneDriftAlarmPerBaseline(init, f);
      WatchTells(WatchAll(init, f), l, f, Told(Baselines(init)));
      NewsExtendsWhatWasTold(Baselines(init), l.built);
      assert Baselines(init) + [] == Baselines(init);
    }
  }

  /** Which looks alert, after any looks before, with markers and sends that work: main must
      have carried, for half an hour or more, a commit other than the newest built one, and the
      built one must be new since the last alarm; one that cannot be seen only counts if there
      was none. */
  lemma AlarmsExactlyWhen(looks: seq<Look>, l: Look, f: AM.Faults)
    requires f.Reliable() && f.sendOk && Trimmed(looks + [l])
    ensures var before, after := WatchAll(looks, f), WatchAll(looks + [l], f);
      var told := AM.NotesFor(before.delivered, DriftKey);
      |after.delivered| > |before.delivered| <==>
        && l.head != "" && l.headAt.Some? && l.head != l.built && l.now - l.headAt.value >= 30 * 60
        && (told == [] || (l.built != "" && l.built != told[|told| - 1]))
  {
    assert (looks + [l])[..|looks|] == looks && (looks + [l])[|looks|] == l;
    assert forall i :: 0 <= i < |looks| ==> (looks + [l])[i] == looks[i];
    OneDriftAlarmPerBaseline(looks, f);
    ToldIsNotBlank(Baselines(looks));
  }

  lemma ToldIsNotBlank(builts: seq<string>)
    ensures Told(builts) != [] ==> Last(Told(builts)) != ""
  {
    if builts != [] {
      VisibleNonBlank(builts);
      var v := Visible(builts);
      CollapseAppend(v[..|v| - 1], v[|v| - 1]);
      assert v == v[..|v| - 1] + [v[|v| - 1]];
      CollapseAppend(v, "");
    }
  }

  lemma NoneIsTrimmed()
    ensures TrimSpace("none") == "none"
  {
    assert TrimLeft("none") == "none";
  }

  lemma VisibleNonBlank(builts: seq<string>)
    ensures builts != [] ==> Visible(builts) != [] && Visible(builts)[|Visible(builts)| - 1] != ""
  {
    if builts != [] {
      var rest := Filter((b: string) => b != "", builts[1..]);
      if rest != [] { FilterKeeps((b: string) => b != "", builts[1..], rest[|rest| - 1]); }
    }
  }

  // ---------------------------------------------------------------- the newest build

  datatype Build = Build(succeeded: bool, sha: Option<string>, start: Option<int>)

  datatype Best = Best(sha: string, at: int)

  predicate Candidate(b: Build) { b.succeeded && b.sha.Some? && b.start.Some? }

  /** The running best after one more build; an empty commit counts as none found yet. */
  function Better(best: Best, b: Build): Best {
    if Candidate(b) && (best.sha == "" || b.start.value > best.at) then Best(b.sha.value, b.start.value)
    else best
  }

  function BestOf(builds: seq<Build>): Best {
    if builds == [] then Best("", 0) else Better(BestOf(builds[..|builds| - 1]), builds[|builds| - 1])
  }

  /** `newestSuccessfulBuild`, over builds in whatever order the service returned them. */
  method NewestSuccessfulBuild(builds: seq<Build>) returns (sha: string)
    ensures sha == BestOf(builds).sha
  {
    sha := "";
    var at := 0;
    for n := 0 to |builds|
      invariant Best(sha, at) == BestOf(builds[..n])
    {
      var b := builds[n];
      assert builds[..n + 1][..n] == builds[..n];
      if !b.succeeded || b.sha.None? { continue; }
      if b.start.None? { continue; }
      if sha == "" || b.start.value > at {
        sha, at := b.sha.value, b.start.value;
      }
    }
    assert builds[..|builds|] == builds;
  }

  /** A candidate no other candidate started after. */
  predicate IsNewest(builds: seq<Build>, b: Build) {
    Candidate(b) && b in builds &&
    forall k :: 0 <= k < |builds| && Candidate(builds[k]) ==> builds[k].start.value <= b.start.value
  }

  /** The newest candidate names its commit, and this is it. */
  predicate IsNewestCommit(builds: seq<Build>, sha: string) {
    sha != "" && exists k :: 0 <= k < |builds| && IsNewest(builds, builds[k]) && builds[k].sha.value == sha
  }

  /** Some newest candidate names a commit. */
  predicate NewestNamed(builds: seq<Build>) {
    exists k :: 0 <= k < |builds| && IsNewest(builds, builds[k]) && builds[k].sha.value != ""
  }

  /** The scan finds the newest successful build's commit exactly when some newest build names
      one, and finds nothing when no build is a candidate; what it finds is always some
      candidate's commit. */
  lemma ScanFindsTheNewestExactly(builds: seq<Build>)
    ensures IsNewestCommit(builds, BestOf(builds).sha) <==> NewestNamed(builds)
    ensures (forall k :: 0 <= k < |builds| ==> !Candidate(builds[k])) ==> BestOf(builds).sha == ""
  {
    ScanBest(builds);
    if NewestNamed(builds) {
      var k :| 0 <= k < |builds| && IsNewest(builds, builds[k]) && builds[k].sha.value != "";
      ScanReaches(builds, k);
    }
  }

  /** A found commit is a candidate's, with its start. */
  lemma {:induction false} ScanBest(builds: seq<Build>)
    ensures var best := BestOf(builds);
      best.sha != "" ==> exists k :: 0 <= k < |builds| && Holds(builds[k], best)
  {
    if builds != [] {
      var n := |builds| - 1;
      ScanBest(builds[..n]);
      var before, best := BestOf(builds[..n]), BestOf(builds);
      if best.sha != "" {
        if best == before {
          var k :| 0 <= k < n && Holds(builds[..n][k], best);
          assert Holds(builds[k], best);
        } else {
          assert Holds(builds[n], best);
        }
      }
    }
  }

  predicate Holds(b: Build, best: Best) { Candidate(b) && b.sha.value == best.sha && b.start.value == best.at }

  /** Past a candidate that names its commit and that nothing so far outdates, the best is
      named and as new. */
  lemma {:induction false} ScanReaches(builds: seq<Build>, k: nat)
    requires k < |builds| && Candidate(builds[k]) && builds[k].sha.value != ""
    requires forall i :: 0 <= i < |builds| && Candidate(builds[i]) ==>
      builds[i].start.value <= builds[k].start.value
    ensures BestOf(builds).sha != "" && BestOf(builds).at == builds[k].start.value
  {
    var n := |builds| - 1;
    if k < n {
      ScanReaches(builds[..n], k);
    } else {
      ScanBest(builds[..n]);
      if BestOf(builds[..n]).sha != "" {
        var i :| 0 <= i < n && Holds(builds[..n][i], BestOf(builds[..n]));
        assert builds[i] == builds[..n][i];
      }
    }
  }

  /** The failing case: the newest build's commit is recorded empty, and an older one is taken. */
  lemma EmptyCommitLetsAnOlderBuildWin(older: string)
    requires older != ""
    ensures var builds := [Build(true, Some(""), Some(2)), Build(true, Some(older), Some(1))];
      BestOf(builds).sha == older && !IsNewestCommit(builds, older)
  {
    var a, b := Build(true, Some(""), Some(2)), Build(true, Some(older), Some(1));
    assert [a, b][..1] == [a] && [a][..0] == [];
    assert BestOf([a]) == Best("", 2);
    assert [a, b][0] == a && !IsNewest([a, b], b);
  }
}
