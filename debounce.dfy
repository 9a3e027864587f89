/**
 * The connectivity debounce state machine of App.js, on values: two trackers
 * (internet and cellular phone data) fed from one NetInfo event stream, each
 * with a committed flag, a disconnect-timer handle and a newest-first history,
 * and one highlight list shared by both.
 *
 * The 5000 ms disconnect timer and the 10000 ms highlight timer are events the
 * environment delivers (TimerFired, HighlightExpired).
 */
module Debounce {
  import opened Highlights

  /** Delay before a disconnection is committed, in milliseconds. */
  const DisconnectDelayMs: nat := 5000
  /** How long an added history entry stays highlighted, in milliseconds. */
  const HighlightMs: nat := 10000

  /** NetInfo's connection types ('none', 'unknown', 'cellular', 'wifi',
      'bluetooth', 'ethernet', 'wimax', 'vpn', 'other'). */
  datatype Transport =
    NoneType | UnknownType | Cellular | Wifi | Bluetooth | Ethernet | Wimax | Vpn | OtherType

  /** The disconnect-timer state slot. `Pending` is a live timer whose
      callback closed over the event's timestamp and over the committed flag
      as it was when the timer was armed; `Spent` is the handle of a timer that
      has already fired, which the callback never resets to null. */
  datatype Handle = NoTimer | Pending(armedAt: Timestamp, sawConnected: bool) | Spent

  /** What the source tests with `if (debounceTimeout)`. */
  predicate Held(h: Handle)
  {
    !h.NoTimer?
  }

  /** One debounced signal: the committed flag, the timer slot, the history. */
  datatype Tracker = Tracker(committed: bool, handle: Handle, history: seq<Entry>)

  datatype Which = Internet | Phone

  /** The whole component state. */
  datatype State = State(internet: Tracker, phone: Tracker, marks: seq<Mark>)
  {
    function Get(w: Which): Tracker
    {
      match w
      case Internet => internet
      case Phone => phone
    }

    function Put(w: Which, t: Tracker): (r: State)
      ensures r.Get(w) == t && r.Get(Other(w)) == Get(Other(w)) && r.marks == marks
    {
      match w
      case Internet => this.(internet := t)
      case Phone => this.(phone := t)
    }
  }

  function Other(w: Which): Which
  {
    match w
    case Internet => Phone
    case Phone => Internet
  }

  /** Both flags true, no timers, empty histories and no highlights. */
  const Initial := State(Tracker(true, NoTimer, []), Tracker(true, NoTimer, []), [])

  /** The raw input the phone tracker sees. */
  predicate PhoneInput(isConnected: bool, transport: Transport)
  {
    isConnected && transport == Cellular
  }

  // ---------------------------------------------------------------------------
  // Transitions
  // ---------------------------------------------------------------------------

  /** addHistoryEntry: prepend the entry to one history and append its mark to
      the shared highlight list. */
  function AddHistoryEntry(s: State, w: Which, e: Entry, color: Color): (r: State)
    ensures r.Get(w).history == [e] + s.Get(w).history
    ensures r.Get(w).committed == s.Get(w).committed && r.Get(w).handle == s.Get(w).handle
    ensures r.Get(Other(w)) == s.Get(Other(w))
    ensures r.marks == s.marks + [MarkOf(e, color)]
  {
    var t := s.Get(w);
    s.Put(w, t.(history := [e] + t.history)).(marks := s.marks + [MarkOf(e, color)])
  }

  /** The half of the listener body for one tracker, given its raw input. */
  function Feed(s: State, w: Which, up: bool, ts: Timestamp): (r: State)
    ensures r.Get(Other(w)) == s.Get(Other(w))
    ensures |s.marks| <= |r.marks| <= |s.marks| + 1 && r.marks[..|s.marks|] == s.marks
    ensures |s.Get(w).history| <= |r.Get(w).history| <= |s.Get(w).history| + 1
    ensures r.Get(w).history[|r.Get(w).history| - |s.Get(w).history|..] == s.Get(w).history
  {
    var t := s.Get(w);
    if up then
      var cleared := t.(handle := NoTimer);
      if !t.committed then
        AddHistoryEntry(s.Put(w, cleared.(committed := true)), w, Entry(Connected, ts), Green)
      else
        s.Put(w, cleared)
    else if !Held(t.handle) then
      s.Put(w, t.(handle := Pending(ts, t.committed)))
    else
      s
  }

  /** The NetInfo listener: the internet tracker on `isConnected`, then the
      phone tracker on `isConnected && type === 'cellular'`, both with the one
      timestamp taken on arrival. */
  function OnEvent(s: State, isConnected: bool, transport: Transport, ts: Timestamp): (r: State)
    ensures r.internet == Feed(s, Internet, isConnected, ts).internet
    ensures r.phone == Feed(s, Phone, PhoneInput(isConnected, transport), ts).phone
  {
    Feed(Feed(s, Internet, isConnected, ts), Phone, PhoneInput(isConnected, transport), ts)
  }

  /** The disconnect-timer callback of tracker `w`. Only a pending timer can
      fire; its handle stays held afterwards. */
  function FireDisconnectTimer(s: State, w: Which): (r: State)
    ensures r.Get(Other(w)) == s.Get(Other(w))
    ensures !s.Get(w).handle.Pending? ==> r == s
    ensures s.Get(w).handle.Pending? ==> r.Get(w).handle == Spent
  {
    var t := s.Get(w);
    match t.handle
    case Pending(armedAt, sawConnected) =>
      if sawConnected then
        AddHistoryEntry(s.Put(w, t.(committed := false, handle := Spent)), w,
                        Entry(Disconnected, armedAt), Red)
      else
        s.Put(w, t.(handle := Spent))
    case _ => s
  }

  /** The highlight-expiry callback for an entry with timestamp `ts`. */
  function ExpireHighlight(s: State, ts: Timestamp): (r: State)
    ensures r.internet == s.internet && r.phone == s.phone
    ensures forall i :: 0 <= i < |r.marks| ==> r.marks[i].timestamp != ts
  {
    s.(marks := WithoutTimestamp(s.marks, ts))
  }

  datatype Event =
    | NetChange(isConnected: bool, transport: Transport, ts: Timestamp)
    | TimerFired(w: Which)
    | HighlightExpired(ts: Timestamp)

  function Step(s: State, ev: Event): State
  {
    match ev
    case NetChange(c, tr, ts) => OnEvent(s, c, tr, ts)
    case TimerFired(w) => FireDisconnectTimer(s, w)
    case HighlightExpired(ts) => ExpireHighlight(s, ts)
  }

  function Run(s: State, evs: seq<Event>): State
    decreases |evs|
  {
    if evs == [] then s else Run(Step(s, evs[0]), evs[1..])
  }

  // ---------------------------------------------------------------------------
  // Invariant
  // ---------------------------------------------------------------------------

  /** Consecutive history entries have different statuses. */
  ghost predicate Alternates(h: seq<Entry>)
  {
    forall i :: 0 <= i < |h| - 1 ==> h[i].status != h[i + 1].status
  }

  /** What every reachable tracker satisfies: the handle is spent exactly when
      the committed flag is false; a pending timer closed over a true flag;
      the history alternates, starts (oldest) with a disconnection, and its
      newest entry is Connected exactly when the flag is true. */
  ghost predicate TrackerInv(t: Tracker)
  {
    (t.committed <==> !t.handle.Spent?) &&
    (t.handle.Pending? ==> t.handle.sawConnected) &&
    Alternates(t.history) &&
    (t.history != [] ==> t.history[|t.history| - 1].status == Disconnected) &&
    (t.committed <==> (t.history == [] || t.history[0].status == Connected))
  }

  ghost predicate Inv(s: State)
  {
    TrackerInv(s.internet) && TrackerInv(s.phone) && ColouredByStatus(s.marks)
  }

  lemma InitialInv()
    ensures Inv(Initial)
  {
  }

  lemma AlternatesPrepend(e: Entry, h: seq<Entry>)
    requires Alternates(h)
    requires h != [] ==> e.status != h[0].status
    ensures Alternates([e] + h)
  {
    var h' := [e] + h;
    forall i | 0 <= i < |h'| - 1 ensures h'[i].status != h'[i + 1].status {
      if i > 0 { assert h'[i] == h[i - 1] && h'[i + 1] == h[i]; }
    }
  }

  lemma ColouredAppend(marks: seq<Mark>, e: Entry)
    requires ColouredByStatus(marks)
    ensures ColouredByStatus(marks + [MarkOf(e, StatusColor(e.status))])
  {
  }

  lemma FeedInv(s: State, w: Which, up: bool, ts: Timestamp)
    requires Inv(s)
    ensures Inv(Feed(s, w, up, ts))
  {
    var t := s.Get(w);
    if up && !t.committed {
      assert t.history != [] && t.history[0].status == Disconnected;
      AlternatesPrepend(Entry(Connected, ts), t.history);
      ColouredAppend(s.marks, Entry(Connected, ts));
    }
    assert TrackerInv(Feed(s, w, up, ts).Get(w));
    assert w == Internet || w == Phone;
  }

  lemma FireInv(s: State, w: Which)
    requires Inv(s)
    ensures Inv(FireDisconnectTimer(s, w))
  {
    var t := s.Get(w);
    if t.handle.Pending? {
      assert t.committed && t.handle.sawConnected;
      AlternatesPrepend(Entry(Disconnected, t.handle.armedAt), t.history);
      ColouredAppend(s.marks, Entry(Disconnected, t.handle.armedAt));
      assert TrackerInv(FireDisconnectTimer(s, w).Get(w));
    }
    assert w == Internet || w == Phone;
  }

  lemma StepInv(s: State, ev: Event)
    requires Inv(s)
    ensures Inv(Step(s, ev))
  {
    match ev
    case NetChange(c, tr, ts) =>
      FeedInv(s, Internet, c, ts);
      FeedInv(Feed(s, Internet, c, ts), Phone, PhoneInput(c, tr), ts);
    case TimerFired(w) =>
      FireInv(s, w);
    case HighlightExpired(ts) =>
      WithoutKeepsColours(s.marks, ts);
  }

  /** Every state reached from a state satisfying the invariant satisfies it. */
  lemma {:induction false} RunInv(s: State, evs: seq<Event>)
    requires Inv(s)
    ensures Inv(Run(s, evs))
    decreases |evs|
  {
    if evs != [] {
      StepInv(s, evs[0]);
      RunInv(Step(s, evs[0]), evs[1..]);
    }
  }

  /** Every state the component reaches from its initial state satisfies the
      invariant. */
  lemma Reachable(evs: seq<Event>)
    ensures Inv(Run(Initial, evs))
  {
    InitialInv();
    RunInv(Initial, evs);
  }

  /** In an alternating history whose oldest entry is a disconnection, the
      status of an entry is fixed by its distance from the oldest end. */
  lemma {:induction false} AlternatingParity(h: seq<Entry>, i: nat)
    requires Alternates(h) && h != [] && h[|h| - 1].status == Disconnected
    requires i < |h|
    ensures h[i].status == if (|h| - 1 - i) % 2 == 0 then Disconnected else Connected
    decreases |h| - i
  {
    if i < |h| - 1 {
      AlternatingParity(h, i + 1);
    }
  }

  /** Consequently a tracker's flag is true exactly when it has recorded an
      even number of transitions. */
  lemma CommittedParity(t: Tracker)
    requires TrackerInv(t)
    ensures t.committed <==> |t.history| % 2 == 0
  {
    if t.history != [] {
      AlternatingParity(t.history, 0);
    }
  }

  // ---------------------------------------------------------------------------
  // Single transitions
  // ---------------------------------------------------------------------------

  /** A connected input cancels any timer and clears the handle; a false flag
      becomes true with exactly one Connected entry prepended and one green
      mark appended; a true flag records nothing. */
  lemma ConnectedInput(s: State, w: Which, ts: Timestamp)
    ensures var r := Feed(s, w, true, ts);
      r.Get(w).handle == NoTimer && r.Get(w).committed &&
      (if s.Get(w).committed
       then r.Get(w).history == s.Get(w).history && r.marks == s.marks
       else r.Get(w).history == [Entry(Connected, ts)] + s.Get(w).history &&
            r.marks == s.marks + [Mark(Connected, ts, Green)])
  {
  }

  /** A disconnected input arms a timer that captures the arrival timestamp
      only when no handle is held; with a handle held, a spent one included,
      it changes nothing. */
  lemma DisconnectedInput(s: State, w: Which, ts: Timestamp)
    ensures var t := s.Get(w);
      Feed(s, w, false, ts) ==
        if Held(t.handle) then s else s.Put(w, t.(handle := Pending(ts, t.committed)))
  {
  }

  /** After a timer has fired, its spent handle stays held, so a further
      disconnected input changes nothing until a connected input clears it. */
  lemma DropAfterFiringIgnored(s: State, w: Which, ts: Timestamp)
    requires Inv(s) && s.Get(w).handle.Pending?
    ensures var r := FireDisconnectTimer(s, w);
      Feed(r, w, false, ts) == r
  {
  }

  /** Under the invariant a pending timer always commits a disconnection: the
      flag drops, one Disconnected entry with the arming event's timestamp is
      prepended, a red mark is appended, and the handle stays held. */
  lemma FiringRecordsDisconnect(s: State, w: Which)
    requires Inv(s) && s.Get(w).handle.Pending?
    ensures var r := FireDisconnectTimer(s, w);
      !r.Get(w).committed && r.Get(w).handle == Spent && Held(r.Get(w).handle) &&
      r.Get(w).history == [Entry(Disconnected, s.Get(w).handle.armedAt)] + s.Get(w).history &&
      r.marks == s.marks + [Mark(Disconnected, s.Get(w).handle.armedAt, Red)]
  {
  }

  /** A connected wifi event is a disconnection for the phone tracker while
      the internet tracker sees a connection. A corollary of OnEvent's
      contract, kept as a named scenario. */
  lemma WifiIsPhoneDisconnect(s: State, ts: Timestamp)
    ensures var r := OnEvent(s, true, Wifi, ts);
      r.internet == Feed(s, Internet, true, ts).internet &&
      r.phone == Feed(s, Phone, false, ts).phone &&
      r.internet.committed
  {
  }

  /** A drop followed by a reconnection before the timer fires leaves a
      connected tracker exactly as it was, with no entry and no mark. */
  lemma FlapAbsorbed(s: State, w: Which, t0: Timestamp, t1: Timestamp)
    requires Inv(s) && s.Get(w).committed && s.Get(w).handle == NoTimer
    ensures Feed(Feed(s, w, false, t0), w, true, t1) == s
  {
  }

  /** A drop whose timer fires records one disconnection stamped with the
      time the drop arrived. */
  lemma SustainedDrop(ts: Timestamp)
    ensures var r := FireDisconnectTimer(OnEvent(Initial, false, NoneType, ts), Internet);
      !r.internet.committed && r.internet.history == [Entry(Disconnected, ts)] &&
      r.phone.committed && r.phone.handle == Pending(ts, true)
  {
  }

  /** Expiry touches no tracker and removes the highlight of both trackers'
      entries when their timestamps collide. A corollary of ExpireHighlight's
      contract, kept as a named scenario. */
  lemma ExpiryHitsBothTrackers(s: State, ts: Timestamp, i: nat, j: nat)
    requires i < |s.internet.history| && j < |s.phone.history|
    requires s.internet.history[i].timestamp == ts && s.phone.history[j].timestamp == ts
    ensures var r := ExpireHighlight(s, ts);
      !IsHighlighted(r.marks, s.internet.history[i].timestamp) &&
      !IsHighlighted(r.marks, s.phone.history[j].timestamp)
  {
  }

  /** When both trackers reconnect on one cellular event, the internet mark is
      appended to the shared list before the phone mark. */
  lemma ReconnectBothOrder(s: State, ts: Timestamp)
    requires Inv(s) && !s.internet.committed && !s.phone.committed
    ensures OnEvent(s, true, Cellular, ts).marks ==
            s.marks + [Mark(Connected, ts, Green), Mark(Connected, ts, Green)]
  {
  }
}
