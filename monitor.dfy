/**
 * The App component's connectivity state as an object whose fields the
 * NetInfo listener, the timer callbacks and addHistoryEntry update in place.
 * Each method is proved against the matching transition of module Debounce.
 */
module App {
  import opened Highlights
  import opened Debounce

  class Monitor {
    var isConnected: bool
    var isPhoneConnected: bool
    var debounceTimeout: Handle
    var phoneDebounceTimeout: Handle
    var internetHistory: seq<Entry>
    var phoneHistory: seq<Entry>
    var highlightedEntries: seq<Mark>

    /** The fields read as a value of the state machine. */
    function State(): Debounce.State
      reads this
    {
      Debounce.State(Tracker(isConnected, debounceTimeout, internetHistory),
                     Tracker(isPhoneConnected, phoneDebounceTimeout, phoneHistory),
                     highlightedEntries)
    }

    ghost predicate Valid()
      reads this
    {
      Inv(State())
    }

    constructor ()
      ensures State() == Initial && Valid()
    {
      isConnected, isPhoneConnected := true, true;
      debounceTimeout, phoneDebounceTimeout := NoTimer, NoTimer;
      internetHistory, phoneHistory := [], [];
      highlightedEntries := [];
      InitialInv();
    }

    /** addHistoryEntry: prepends `entry` to the history of `w` and appends
        it, with `color`, to the shared highlight list. Its 10000 ms expiry is
        delivered later as ExpireHighlight(entry.timestamp). */
    method AddHistoryEntry(w: Which, entry: Entry, color: Color)
      modifies this
      ensures State() == Debounce.AddHistoryEntry(old(State()), w, entry, color)
      // The two clauses below follow from the one above; they spell out the
      // prepend and the append for a reader.
      ensures State().Get(w).history == [entry] + old(State().Get(w).history)
      ensures highlightedEntries == old(highlightedEntries) + [Mark(entry.status, entry.timestamp, color)]
    {
      if w == Internet {
        internetHistory := [entry] + internetHistory;
      } else {
        phoneHistory := [entry] + phoneHistory;
      }
      highlightedEntries := highlightedEntries + [Mark(entry.status, entry.timestamp, color)];
    }

    /** The NetInfo listener: `connected` is the event's isConnected (null
        read as false), `transport` its type, `ts` the arrival timestamp. */
    method OnEvent(connected: bool, transport: Transport, ts: Timestamp)
      requires Valid()
      modifies this
      ensures Valid()
      ensures State() == Debounce.OnEvent(old(State()), connected, transport, ts)
      ensures isConnected == (connected || old(isConnected))
      ensures isPhoneConnected == (PhoneInput(connected, transport) || old(isPhoneConnected))
    {
      ghost var s0 := State();
      DebounceInternet(connected, ts);
      ghost var s1 := State();
      var phoneStatus := connected && transport == Cellular;
      DebouncePhone(phoneStatus, ts);
      assert State() == Feed(s1, Phone, phoneStatus, ts) && s1 == Feed(s0, Internet, connected, ts);
    }

    /** The internet half of the listener body. */
    method DebounceInternet(up: bool, ts: Timestamp)
      requires Valid()
      modifies this
      ensures Valid()
      ensures State() == Feed(old(State()), Internet, up, ts)
      ensures isConnected == (up || old(isConnected)) && isPhoneConnected == old(isPhoneConnected)
    {
      FeedInv(State(), Internet, up, ts);
      if up {
        if Held(debounceTimeout) {
          debounceTimeout := NoTimer;
        }
        if !isConnected {
          isConnected := true;
          AddHistoryEntry(Internet, Entry(Connected, ts), Green);
        }
      } else {
        if !Held(debounceTimeout) {
          debounceTimeout := Pending(ts, isConnected);
        }
      }
    }

    /** The phone half of the listener body, on `isConnected && type === 'cellular'`. */
    method DebouncePhone(up: bool, ts: Timestamp)
      requires Valid()
      modifies this
      ensures Valid()
      ensures State() == Feed(old(State()), Phone, up, ts)
      ensures isPhoneConnected == (up || old(isPhoneConnected)) && isConnected == old(isConnected)
    {
      FeedInv(State(), Phone, up, ts);
      if up {
        if Held(phoneDebounceTimeout) {
          phoneDebounceTimeout := NoTimer;
        }
        if !isPhoneConnected {
          isPhoneConnected := true;
          AddHistoryEntry(Phone, Entry(Connected, ts), Green);
        }
      } else {
        if !Held(phoneDebounceTimeout) {
          phoneDebounceTimeout := Pending(ts, isPhoneConnected);
        }
      }
    }

    /** The disconnect-timer callback of tracker `w`, delivered 5000 ms after
        it was armed unless a connected event cancelled it. */
    method FireDisconnectTimer(w: Which)
      requires Valid()
      modifies this
      ensures Valid()
      ensures State() == Debounce.FireDisconnectTimer(old(State()), w)
    {
      ghost var s0 := State();
      FireInv(s0, w);
      match w
      case Internet =>
        if debounceTimeout.Pending? {
          var armedAt, sawConnected := debounceTimeout.armedAt, debounceTimeout.sawConnected;
          debounceTimeout := Spent;
          if sawConnected {
            isConnected := false;
            AddHistoryEntry(Internet, Entry(Disconnected, armedAt), Red);
          }
        }
      case Phone =>
        if phoneDebounceTimeout.Pending? {
          var armedAt, sawConnected := phoneDebounceTimeout.armedAt, phoneDebounceTimeout.sawConnected;
          phoneDebounceTimeout := Spent;
          if sawConnected {
            isPhoneConnected := false;
            AddHistoryEntry(Phone, Entry(Disconnected, armedAt), Red);
          }
        }
    }

    /** The highlight-expiry callback for the entry stamped `ts`. */
    method ExpireHighlight(ts: Timestamp)
      requires Valid()
      modifies this
      ensures Valid()
      ensures State() == Debounce.ExpireHighlight(old(State()), ts)
    {
      highlightedEntries := WithoutTimestamp(highlightedEntries, ts);
      WithoutKeepsColours(old(highlightedEntries), ts);
    }

    /** renderHistory, applied to the history of `w`; reads only. */
    function Rendered(w: Which): (rows: seq<Row>)
      reads this
      ensures |rows| == |State().Get(w).history|
    {
      RenderHistory(State().Get(w).history, highlightedEntries)
    }
  }
}
