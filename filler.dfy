/**
 * The admin-tool side of a handoff: `initLifeguard` waits for the login to
 * finish or polls for the form, and `fillLifeguardForm` reads the relay,
 * fills the form field by field and clears the relay.
 */
module Filler {
  import opened Wrappers
  import opened Relay

  /** The three form controls the fill writes. */
  datatype Field = HostName | ReasonCode | JiraTicket

  /**
   * What the fill does, in order. The three timers of the source become
   * `Wait` events: only the order of events and the stated delays are kept.
   */
  datatype Event =
    | SetValue(field: Field, value: string)
    | DispatchInput(field: Field)
    | JQueryInput(field: Field)
    | DispatchChange(field: Field)
    | Blur(field: Field)
    | BodyClick
    | Wait(ms: nat)
    | StoreSet(key: string, stored: Value)
    | ShowSuccess

  /** Which elements the admin-tool page has when it is inspected. */
  datatype PageSnapshot = PageSnapshot(
    userName: bool, password: bool,
    hostName: bool, reasonSelect: bool, jiraTicket: bool,
    jQuery: bool)

  /** `isLoginPage()`: both login inputs are present. */
  predicate IsLoginPage(page: PageSnapshot)
  {
    page.userName && page.password
  }

  /** `hostInput && reasonSelect && ticketInput`. */
  predicate FormPresent(page: PageSnapshot)
  {
    page.hostName && page.reasonSelect && page.jiraTicket
  }

  /** The reason code the fill selects. */
  const ReasonCodeValue := "Config"

  /** The delays, in milliseconds, before the blur, the reason code and the ticket. */
  const BlurDelayMs := 300
  const ReasonDelayMs := 200
  const TicketDelayMs := 100

  /** The event sequence of a successful fill with handoff `rec`, step by step. */
  function FillTrace(page: PageSnapshot, rec: RelayRecord): seq<Event>
  {
    HostStep(page, rec.hostname) + ReasonStep() + TicketStep(rec.ticket) + ClearStep() + [ShowSuccess]
  }

  /** Set the host name, announce it (also through jQuery when the page has it), then blur and click the body 300 ms later. */
  function HostStep(page: PageSnapshot, hostname: string): seq<Event>
  {
    [SetValue(HostName, hostname), DispatchInput(HostName)]
    + (if page.jQuery then [JQueryInput(HostName)] else [])
    + [Wait(BlurDelayMs), Blur(HostName), BodyClick]
  }

  /** 200 ms later, select the reason code and announce the change. */
  function ReasonStep(): seq<Event>
  {
    [Wait(ReasonDelayMs), SetValue(ReasonCode, ReasonCodeValue), DispatchChange(ReasonCode)]
  }

  /** 100 ms later, set the ticket and announce it. */
  function TicketStep(ticket: string): seq<Event>
  {
    [Wait(TicketDelayMs), SetValue(JiraTicket, ticket), DispatchInput(JiraTicket)]
  }

  /** Set the three relay keys to `null`. */
  function ClearStep(): seq<Event>
  {
    [StoreSet(HostnameKey, Null), StoreSet(TicketKey, Null), StoreSet(TimestampKey, Null)]
  }

  /**
   * `fillLifeguardForm()`: nothing happens on the login page, without a
   * valid handoff or without all three form controls; otherwise the form
   * is filled and the relay cleared.
   */
  method FillLifeguardForm(page: PageSnapshot, relay: HandoffRelay, now: int) returns (trace: seq<Event>)
    modifies relay
    ensures var rec := ReadIfValid(old(relay.store), now);
      if !IsLoginPage(page) && rec.Some? && FormPresent(page) then
        trace == FillTrace(page, rec.value) && relay.store == Cleared(old(relay.store))
      else
        trace == [] && relay.store == old(relay.store)
  {
    trace := [];
    if IsLoginPage(page) {
      return;
    }
    var rec := ReadIfValid(relay.store, now);
    if rec.None? {
      return;
    }
    if FormPresent(page) {
      trace := HostStep(page, rec.value.hostname);
      trace := trace + ReasonStep();
      trace := trace + TicketStep(rec.value.ticket);
      relay.Set(HostnameKey, Null);
      relay.Set(TicketKey, Null);
      relay.Set(TimestampKey, Null);
      trace := trace + ClearStep();
      trace := trace + [ShowSuccess];
    }
  }

  /** An event as the write projection keeps it: field and store writes stay, everything else goes. */
  function Kept(e: Event): seq<Event>
  {
    if e.SetValue? || e.StoreSet? then [e] else []
  }

  /** The writes of a trace, to form fields and to the store, in order; notifications, waits and the toast dropped. */
  function Writes(trace: seq<Event>): seq<Event>
  {
    if trace == [] then [] else Kept(trace[0]) + Writes(trace[1..])
  }

  /** The write projection distributes over concatenation. */
  lemma {:induction false} WritesAppend(a: seq<Event>, b: seq<Event>)
    ensures Writes(a + b) == Writes(a) + Writes(b)
  {
    if a == [] {
      assert a + b == b;
    } else {
      assert (a + b)[1..] == a[1..] + b;
      WritesAppend(a[1..], b);
    }
  }

  /** The writes of a three-event trace. */
  lemma WritesOfThree(x: Event, y: Event, z: Event)
    ensures Writes([x, y, z]) == Kept(x) + Kept(y) + Kept(z)
  {
    assert [x, y, z][1..] == [y, z];
    assert [y, z][1..] == [z];
    assert [z][1..] == [];
    assert Writes([z]) == Kept(z);
    assert Writes([y, z]) == Kept(y) + Writes([z]);
  }

  /** The host step writes only the host name. */
  lemma HostStepWrites(page: PageSnapshot, hostname: string)
    ensures Writes(HostStep(page, hostname)) == [SetValue(HostName, hostname)]
  {
    var p1: seq<Event> := [SetValue(HostName, hostname), DispatchInput(HostName)];
    var j: seq<Event> := if page.jQuery then [JQueryInput(HostName)] else [];
    var p2: seq<Event> := [Wait(BlurDelayMs), Blur(HostName), BodyClick];
    assert Writes(p1) == [p1[0]] by { assert p1[1..][1..] == []; assert Writes(p1[1..]) == []; }
    assert Writes(j) == [] by { if j != [] { assert j[1..] == []; } }
    WritesOfThree(p2[0], p2[1], p2[2]);
    WritesAppend(p1 + j, p2);
    WritesAppend(p1, j);
  }

  /** The reason step writes only the reason code. */
  lemma ReasonStepWrites()
    ensures Writes(ReasonStep()) == [SetValue(ReasonCode, ReasonCodeValue)]
  {
    var r := ReasonStep();
    WritesOfThree(r[0], r[1], r[2]);
    assert r == [r[0], r[1], r[2]];
  }

  /** The ticket step writes only the ticket. */
  lemma TicketStepWrites(ticket: string)
    ensures Writes(TicketStep(ticket)) == [SetValue(JiraTicket, ticket)]
  {
    var t := TicketStep(ticket);
    WritesOfThree(t[0], t[1], t[2]);
    assert t == [t[0], t[1], t[2]];
  }

  /** The clear step is nothing but store writes. */
  lemma ClearStepWrites()
    ensures Writes(ClearStep()) == ClearStep()
  {
    var c := ClearStep();
    WritesOfThree(c[0], c[1], c[2]);
    assert c == [c[0], c[1], c[2]];
  }

  /**
   * A fill writes the host name, then the reason code, then the ticket, and
   * only then clears each relay key once.
   */
  lemma FillWriteOrder(page: PageSnapshot, rec: RelayRecord)
    ensures Writes(FillTrace(page, rec)) == [
      SetValue(HostName, rec.hostname),
      SetValue(ReasonCode, ReasonCodeValue),
      SetValue(JiraTicket, rec.ticket)] + ClearStep()
  {
    var h, r, t, c, e := HostStep(page, rec.hostname), ReasonStep(), TicketStep(rec.ticket), ClearStep(), [ShowSuccess];
    HostStepWrites(page, rec.hostname);
    ReasonStepWrites();
    TicketStepWrites(rec.ticket);
    ClearStepWrites();
    assert Writes(e) == [] by { assert e[1..] == []; }
    WritesOfSteps(h, r, t, c, e, SetValue(HostName, rec.hostname), SetValue(ReasonCode, ReasonCodeValue), SetValue(JiraTicket, rec.ticket));
  }

  /** Five steps that write `x`, `y`, `z`, then `c` itself, then nothing, write exactly that in order. */
  lemma WritesOfSteps(h: seq<Event>, r: seq<Event>, t: seq<Event>, c: seq<Event>, e: seq<Event>, x: Event, y: Event, z: Event)
    requires Writes(h) == [x] && Writes(r) == [y] && Writes(t) == [z] && Writes(c) == c && Writes(e) == []
    ensures Writes(h + r + t + c + e) == [x, y, z] + c
  {
    WritesAppend(h + r + t + c, e);
    WritesAppend(h + r + t, c);
    WritesAppend(h + r, t);
    WritesAppend(h, r);
    assert [x] + [y] + [z] == [x, y, z];
  }

  /** How a control announces its new value: `input` for text inputs, `change` for the select. */
  function NotificationOf(field: Field): Event
  {
    if field == ReasonCode then DispatchChange(field) else DispatchInput(field)
  }

  /** Every field write is immediately followed by its notification, and every one but the first directly follows a wait. */
  lemma FillNotifiesEachWrite(page: PageSnapshot, rec: RelayRecord)
    ensures Notified(FillTrace(page, rec))
  {
    var h, r, t, c := HostStep(page, rec.hostname), ReasonStep(), TicketStep(rec.ticket), ClearStep() + [ShowSuccess];
    HostStepNotified(page, rec.hostname);
    ReasonStepNotified();
    TicketStepNotified(rec.ticket);
    ClearStepNotified();
    NotifiedAppend(h, r);
    NotifiedAppend(h + r, t);
    NotifiedAppend(h + r + t, c);
    assert FillTrace(page, rec) == h + r + t + c;
  }

  /** Every value set in `t` is announced by the next event and, except at the start, comes after a wait. */
  predicate Notified(t: seq<Event>)
  {
    forall i :: 0 <= i < |t| && t[i].SetValue? ==>
      && i + 1 < |t| && t[i + 1] == NotificationOf(t[i].field)
      && (i == 0 || t[i - 1].Wait?)
  }

  /**
   * Two traces that each keep `Notified` still keep it joined, provided
   * the first does not end in a write and a write opening the second
   * follows a wait.
   */
  lemma NotifiedAppend(a: seq<Event>, b: seq<Event>)
    requires Notified(a) && Notified(b)
    requires |a| > 0 ==> !a[|a| - 1].SetValue?
    requires |a| > 0 && |b| > 0 && b[0].SetValue? ==> a[|a| - 1].Wait?
    ensures Notified(a + b)
  {
    var t := a + b;
    forall i | 0 <= i < |t| && t[i].SetValue?
      ensures i + 1 < |t| && t[i + 1] == NotificationOf(t[i].field) && (i == 0 || t[i - 1].Wait?)
    {
      if i < |a| {
        assert t[i] == a[i];
        assert i + 1 < |a|;
        assert t[i + 1] == a[i + 1];
        if i > 0 {
          assert t[i - 1] == a[i - 1];
        }
      } else {
        var j := i - |a|;
        assert t[i] == b[j];
        assert t[i + 1] == b[j + 1];
        if j > 0 {
          assert t[i - 1] == b[j - 1];
        }
      }
    }
  }

  /** The host step announces its write. */
  lemma HostStepNotified(page: PageSnapshot, hostname: string)
    ensures Notified(HostStep(page, hostname))
  {
    var p1: seq<Event> := [SetValue(HostName, hostname), DispatchInput(HostName)];
    var j: seq<Event> := if page.jQuery then [JQueryInput(HostName)] else [];
    var p2: seq<Event> := [Wait(BlurDelayMs), Blur(HostName), BodyClick];
    NotifiedAppend(p1, j);
    NotifiedAppend(p1 + j, p2);
  }

  /** The reason step waits, writes and announces. */
  lemma ReasonStepNotified()
    ensures Notified(ReasonStep())
  {
  }

  /** The ticket step waits, writes and announces. */
  lemma TicketStepNotified(ticket: string)
    ensures Notified(TicketStep(ticket))
  {
  }

  /** The clear step and the toast write no form field. */
  lemma ClearStepNotified()
    ensures Notified(ClearStep() + [ShowSuccess])
  {
  }

  /** A fill followed by another fill, later or at once, on any page: the second one does nothing. */
  method FillTwice(page: PageSnapshot, again: PageSnapshot, relay: HandoffRelay, now: int, later: int)
    returns (first: seq<Event>, second: seq<Event>)
    requires ReadIfValid(relay.store, now).Some? && !IsLoginPage(page) && FormPresent(page)
    modifies relay
    ensures first == FillTrace(page, ReadIfValid(old(relay.store), now).value)
    ensures second == [] && relay.store == Cleared(old(relay.store))
  {
    first := FillLifeguardForm(page, relay, now);
    ReadAfterClear(old(relay.store), later);
    second := FillLifeguardForm(again, relay, later);
  }

  /** The interval of the form poll and the time after which the poll is cancelled, in milliseconds. */
  const PollIntervalMs := 100
  const PollTimeoutMs := 5000

  /** The delays, in milliseconds, from the login finishing and from the poll seeing the form to the fill. */
  const LoginFillDelayMs := 1000
  const FormFillDelayMs := 500

  /**
   * How `initLifeguard` ends: watching for the login to finish (the fill
   * then follows `delayMs` later), a fill scheduled at `fillAtMs` by poll
   * tick `tick`, or the poll cancelled.
   */
  datatype InitOutcome = AwaitLogin(delayMs: nat) | FillScheduled(tick: nat, fillAtMs: nat) | PollTimedOut

  /**
   * `initLifeguard()`. On the login page a mutation observer waits for the
   * login inputs to disappear and then runs the fill. Otherwise an interval
   * checks every 100 ms for the HostName input and schedules the fill on the
   * first tick that sees it; it is cancelled at 5000 ms. `hostNameAt(k)` is
   * whether tick `k`, counted from 1, sees the input; the tick that would
   * coincide with the cancellation is taken as cancelled.
   */
  method InitLifeguard(page: PageSnapshot, hostNameAt: nat -> bool) returns (outcome: InitOutcome)
    ensures outcome.AwaitLogin? <==> IsLoginPage(page)
    ensures outcome.AwaitLogin? ==> outcome.delayMs == LoginFillDelayMs
    ensures outcome.FillScheduled? ==>
      && 1 <= outcome.tick && outcome.tick * PollIntervalMs < PollTimeoutMs
      && outcome.fillAtMs == outcome.tick * PollIntervalMs + FormFillDelayMs
      && hostNameAt(outcome.tick)
      && forall k :: 1 <= k < outcome.tick ==> !hostNameAt(k)
    ensures outcome == PollTimedOut ==> forall k :: 1 <= k && k * PollIntervalMs < PollTimeoutMs ==> !hostNameAt(k)
  {
    if IsLoginPage(page) {
      return AwaitLogin(LoginFillDelayMs);
    }
    var tick := 1;
    while tick * PollIntervalMs < PollTimeoutMs
      invariant 1 <= tick && (tick - 1) * PollIntervalMs < PollTimeoutMs
      invariant forall k :: 1 <= k < tick ==> !hostNameAt(k)
    {
      if hostNameAt(tick) {
        return FillScheduled(tick, tick * PollIntervalMs + FormFillDelayMs);
      }
      tick := tick + 1;
    }
    outcome := PollTimedOut;
  }
}
