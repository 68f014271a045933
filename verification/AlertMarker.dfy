/**
 internal/alertmarker: check, then send, then mark, over a store that may fail and a
 process that may die. A `Faults` value resolves every way one call can go wrong.
 */
module AlertMarker {
  import opened Wrappers
  import opened Text

  /** What the world does during one call: which steps succeed, and whether the process
      dies after the send was confirmed and before the marker is written. */
  datatype Faults = Faults(readOk: bool, sendOk: bool, dies: bool, writeOk: bool) {
    predicate Reliable() { readOk && !dies && writeOk }
  }

  datatype Kind = Always | Once | OnChange

  datatype Op = Op(kind: Kind, key: string, note: string)

  datatype Delivery = Delivery(key: string, note: string)

  /** The durable markers, and everything the channel has confirmed sending. */
  datatype World = World(blobs: map<string, string>, delivered: seq<Delivery>)

  /** The trimmed recorded body; a failed read reports no marker. */
  function TokenOf(blobs: map<string, string>, key: string, readOk: bool): Option<string> {
    if readOk && key in blobs then Some(TrimSpace(blobs[key])) else None
  }

  /** Whether the gate of `op` lets a send through. */
  predicate Attempts(w: World, op: Op, f: Faults) {
    var tok := TokenOf(w.blobs, op.key, f.readOk);
    match op.kind
    case Always => true
    case Once => tok.None?
    case OnChange => tok != Some(TrimSpace(op.note))
  }

  function Apply(w: World, op: Op, f: Faults): World {
    if !Attempts(w, op, f) || !f.sendOk then w
    else
      World(
        if f.dies || !f.writeOk then w.blobs else w.blobs[op.key := op.note],
        w.delivered + [Delivery(op.key, op.note)])
  }

  type Trace = seq<(Op, Faults)>

  function Run(w: World, trace: Trace): World {
    if trace == [] then w
    else
      var last := trace[|trace| - 1];
      Apply(Run(w, trace[..|trace| - 1]), last.0, last.1)
  }

  lemma RunAppend(w: World, trace: Trace, call: (Op, Faults))
    ensures Run(w, trace + [call]) == Apply(Run(w, trace), call.0, call.1)
  {
    assert (trace + [call])[..|trace|] == trace;
  }

  /** The notes delivered under `key`, in order. */
  function NotesFor(delivered: seq<Delivery>, key: string): seq<string> {
    if delivered == [] then []
    else
      var d := delivered[|delivered| - 1];
      NotesFor(delivered[..|delivered| - 1], key) + if d.key == key then [d.note] else []
  }

  const Fresh := World(map[], [])

  /** SendOnce goes through to the send. */
  predicate OnceAttempts(blobs: map<string, string>, key: string, f: Faults) {
    TokenOf(blobs, key, f.readOk).None?
  }

  /** SendOnce returns true. */
  predicate OnceSends(blobs: map<string, string>, key: string, f: Faults) {
    OnceAttempts(blobs, key, f) && f.sendOk
  }

  // ---------------------------------------------------------------- the object itself

  class Store {
    var blobs: map<string, string>

    constructor (blobs: map<string, string>)
      ensures this.blobs == blobs
    {
      this.blobs := blobs;
    }

    method Publish(key: string, data: string, ok: bool) returns (failed: bool)
      modifies this
      ensures failed == !ok
      ensures blobs == if ok then old(blobs)[key := data] else old(blobs)
    {
      if ok { blobs := blobs[key := data]; }
      failed := !ok;
    }
  }

  class Channel {
    var delivered: seq<Delivery>

    constructor ()
      ensures delivered == []
    {
      delivered := [];
    }
  }

  /** A marker over a store; with no store every call sends and nothing is recorded. */
  class Marker {
    const store: Store?

    constructor (store: Store?)
      ensures this.store == store
    {
      this.store := store;
    }

    function Blobs(): map<string, string>
      reads this, store
    {
      if store == null then map[] else store.blobs
    }

    method Token(key: string, readOk: bool) returns (tok: Option<string>)
      ensures tok == TokenOf(Blobs(), key, readOk)
    {
      if store == null || !readOk || key !in store.blobs { return None; }
      tok := Some(TrimSpace(store.blobs[key]));
    }

    method Record(key: string, note: string, writeOk: bool)
      modifies store
      ensures store != null ==>
        store.blobs == if writeOk then old(store.blobs)[key := note] else old(store.blobs)
    {
      if store != null { var _ := store.Publish(key, note, writeOk); }
    }

    method Send(key: string, note: string, channel: Channel, f: Faults) returns (failed: bool)
      requires store as object? != channel
      modifies store, channel
      ensures failed == !f.sendOk
      ensures store != null ==>
        World(store.blobs, channel.delivered) ==
        old(Apply(World(store.blobs, channel.delivered), Op(Always, key, note), f))
      ensures store == null ==>
        channel.delivered == old(channel.delivered) + if f.sendOk then [Delivery(key, note)] else []
    {
      if !f.sendOk { return true; }
      channel.delivered := channel.delivered + [Delivery(key, note)];
      if f.dies { return false; }
      Record(key, note, f.writeOk);
      failed := false;
    }

    method SendOnce(key: string, note: string, channel: Channel, f: Faults)
      returns (sent: bool, failed: bool)
      requires store as object? != channel
      modifies store, channel
      ensures store != null ==>
        World(store.blobs, channel.delivered) ==
        old(Apply(World(store.blobs, channel.delivered), Op(Once, key, note), f))
      ensures store == null ==>
        channel.delivered == old(channel.delivered) + if f.sendOk then [Delivery(key, note)] else []
      ensures sent <==> channel.delivered != old(channel.delivered)
      ensures sent <==> OnceSends(old(Blobs()), key, f)
      ensures failed <==> OnceAttempts(old(Blobs()), key, f) && !f.sendOk
      ensures !sent && !failed ==> store != null && key in old(store.blobs)
    {
      var tok := Token(key, f.readOk);
      if tok.Some? { return false, false; }
      failed := Send(key, note, channel, f);
      sent := !failed;
    }

    method SendOnChange(key: string, note: string, channel: Channel, f: Faults)
      returns (sent: bool, failed: bool)
      requires store as object? != channel
      modifies store, channel
      ensures store != null ==>
        World(store.blobs, channel.delivered) ==
        old(Apply(World(store.blobs, channel.delivered), Op(OnChange, key, note), f))
      ensures store == null ==>
        channel.delivered == old(channel.delivered) + if f.sendOk then [Delivery(key, note)] else []
      ensures sent <==> channel.delivered != old(channel.delivered)
      ensures sent <==> TokenOf(old(Blobs()), key, f.readOk) != Some(TrimSpace(note)) && f.sendOk
      ensures failed <==> TokenOf(old(Blobs()), key, f.readOk) != Some(TrimSpace(note)) && !f.sendOk
      ensures !sent && !failed ==>
        store != null && key in old(store.blobs) && TrimSpace(old(store.blobs)[key]) == TrimSpace(note)
    {
      var tok := Token(key, f.readOk);
      if tok == Some(TrimSpace(note)) { return false, false; }
      failed := Send(key, note, channel, f);
      sent := !failed;
    }
  }

  // ---------------------------------------------------------------- what holds of every run

  /** A stored marker carries the note of a send that was confirmed earlier, whatever
      failed and wherever the process died. */
  lemma {:induction false} MarkerMeansDelivered(trace: Trace, key: string)
    ensures var w := Run(Fresh, trace);
      key in w.blobs ==> Delivery(key, w.blobs[key]) in w.delivered
  {
    if trace != [] { MarkerMeansDelivered(trace[..|trace| - 1], key); }
  }

  /** Silence is never caused by a fault: a call that sends nothing and reports no error
      has an earlier confirmed delivery under its key. */
  lemma NeverSilenced(trace: Trace, op: Op, f: Faults)
    requires !Attempts(Run(Fresh, trace), op, f)
    ensures exists note ::
      (Delivery(op.key, note) in Run(Fresh, trace).delivered
       && (op.kind == OnChange ==> TrimSpace(note) == TrimSpace(op.note)))
  {
    MarkerMeansDelivered(trace, op.key);
    var w := Run(Fresh, trace);
    assert Delivery(op.key, w.blobs[op.key]) in w.delivered;
  }

  /** Every call on `key` is of the given kind and meets a store and process that work;
      calls on other keys may be of any kind and fail in any way. */
  ghost predicate ReliableOn(trace: Trace, key: string, kind: Kind) {
    forall i :: 0 <= i < |trace| && trace[i].0.key == key ==>
      trace[i].0.kind == kind && trace[i].1.Reliable()
  }

  /** Some call on `key` meets a channel that accepts the send. */
  predicate SomeSendAccepted(trace: Trace, key: string) {
    exists i :: 0 <= i < |trace| && trace[i].0.key == key && trace[i].1.sendOk
  }

  lemma NotesForAppend(delivered: seq<Delivery>, d: Delivery, key: string)
    ensures NotesFor(delivered + [d], key) ==
      NotesFor(delivered, key) + if d.key == key then [d.note] else []
  {
    assert (delivered + [d])[..|delivered|] == delivered;
  }

  lemma AcceptedGrows(trace: Trace, call: (Op, Faults), key: string)
    ensures SomeSendAccepted(trace + [call], key) <==>
            SomeSendAccepted(trace, key) || (call.0.key == key && call.1.sendOk)
  {
    var more := trace + [call];
    assert more[|trace|] == call;
    assert forall i :: 0 <= i < |trace| ==> more[i] == trace[i];
  }

  /** With a store that works, SendOnce delivers exactly once if any send is accepted and
      never otherwise, however often it is called. */
  lemma {:induction false} SendOnceExactlyOnce(trace: Trace, key: string)
    requires ReliableOn(trace, key, Once)
    ensures var w := Run(Fresh, trace);
      && |NotesFor(w.delivered, key)| == (if SomeSendAccepted(trace, key) then 1 else 0)
      && (key in w.blobs <==> SomeSendAccepted(trace, key))
  {
    if trace != [] {
      var init, last := trace[..|trace| - 1], trace[|trace| - 1];
      SendOnceExactlyOnce(init, key);
      NotesForAppend(Run(Fresh, init).delivered, Delivery(last.0.key, last.0.note), key);
      AcceptedGrows(init, last, key);
      assert trace == init + [last];
    }
  }

  ghost predicate NoRepeat(notes: seq<string>) {
    forall i :: 0 < i < |notes| ==> TrimSpace(notes[i - 1]) != TrimSpace(notes[i])
  }

  lemma NoRepeatAppend(notes: seq<string>, note: string)
    requires NoRepeat(notes)
    requires notes != [] ==> TrimSpace(notes[|notes| - 1]) != TrimSpace(note)
    ensures NoRepeat(notes + [note])
  {
    var more := notes + [note];
    forall i | 0 < i < |more| ensures TrimSpace(more[i - 1]) != TrimSpace(more[i]) {
      if i < |notes| { assert more[i - 1] == notes[i - 1] && more[i] == notes[i]; }
    }
  }

  /** No token was delivered twice running, and the marker holds the latest one. */
  ghost predicate LatestIsMarked(w: World, key: string) {
    var notes := NotesFor(w.delivered, key);
    && NoRepeat(notes)
    && (key in w.blobs <==> notes != [])
    && (notes != [] ==> w.blobs[key] == notes[|notes| - 1])
  }

  lemma SendOnChangeKeepsLatest(w: World, op: Op, f: Faults, key: string)
    requires LatestIsMarked(w, key)
    requires op.key == key ==> op.kind == OnChange && f.Reliable()
    ensures LatestIsMarked(Apply(w, op, f), key)
  {
    var notes := NotesFor(w.delivered, key);
    NotesForAppend(w.delivered, Delivery(op.key, op.note), key);
    if op.key != key {
      assert notes + [] == notes;
    } else if Attempts(w, op, f) && f.sendOk {
      NoRepeatAppend(notes, op.note);
    }
  }

  /** With a store that works, SendOnChange never delivers the same token twice running. */
  lemma {:induction false} SendOnChangeNeverRepeats(trace: Trace, key: string)
    requires ReliableOn(trace, key, OnChange)
    ensures NoRepeat(NotesFor(Run(Fresh, trace).delivered, key))
    ensures LatestIsMarked(Run(Fresh, trace), key)
  {
    if trace != [] {
      var init, last := trace[..|trace| - 1], trace[|trace| - 1];
      SendOnChangeNeverRepeats(init, key);
      SendOnChangeKeepsLatest(Run(Fresh, init), last.0, last.1, key);
    }
  }

  /** The hypothesis that the process survives is needed: one death between the send and
      the mark makes SendOnce deliver twice over a store that never fails. */
  lemma DeathBetweenSendAndMarkRepeats(key: string, note: string)
    ensures var op := Op(Once, key, note);
      NotesFor(Run(Fresh, [(op, Faults(true, true, true, true)),
                           (op, Faults(true, true, false, true))]).delivered, key) == [note, note]
  {
    var op := Op(Once, key, note);
    var t := [(op, Faults(true, true, true, true)), (op, Faults(true, true, false, true))];
    assert t[..1] == [t[0]] && t[..1][..0] == [];
    assert Run(Fresh, t[..1]) == World(map[], [Delivery(key, note)]);
    NotesForAppend([], Delivery(key, note), key);
    NotesForAppend([Delivery(key, note)], Delivery(key, note), key);
    assert Run(Fresh, t).delivered == [Delivery(key, note)] + [Delivery(key, note)];
  }

  /** What SendOnce returns says whether it attempted the send exactly when its marker could be
      read and exists, or the channel accepts: a rejected attempt is reported as none. */
  lemma ReportMeansAttemptExactly(blobs: map<string, string>, key: string, f: Faults)
    ensures (OnceSends(blobs, key, f) <==> OnceAttempts(blobs, key, f)) <==>
            (f.readOk && key in blobs) || f.sendOk
  {
  }

  /** The failing case, through the method itself: nothing marked, a working store, and a
      channel that rejects; the send was attempted and the report says it was not. */
  method RejectedAttemptIsReportedAsNone(key: string, note: string) returns (sent: bool, failed: bool)
    ensures OnceAttempts(map[], key, Faults(true, false, false, true))
    ensures !sent && failed
  {
    var store := new Store(map[]);
    var marker := new Marker(store);
    var channel := new Channel();
    sent, failed := marker.SendOnce(key, note, channel, Faults(true, false, false, true));
  }
}
