/** The sample webhook consumer and why it converges (`examples/webhook_consumer.py`). */
module Consumer {
  import opened Wrappers
  import opened Domains
  import Worker
  import DomainGuarantees

  // An event notification: its id, the domain it is about, its time and the domain as it then was.
  datatype Note<P> = Note(id: nat, domain: string, createdAt: Time, payload: P)

  datatype Outcome = Applied | Duplicate | Stale

  datatype View<P> = View(seen: set<nat>, latest: map<string, Time>, state: map<string, P>)

  function OutcomeOf<P>(v: View<P>, n: Note<P>): Outcome {
    if n.id in v.seen then Duplicate
    else if n.domain in v.latest && n.createdAt < v.latest[n.domain] then Stale
    else Applied
  }

  function Handled<P>(v: View<P>, n: Note<P>): View<P> {
    match OutcomeOf(v, n)
    case Duplicate => v
    case Stale => v.(seen := v.seen + {n.id})
    case Applied => View(v.seen + {n.id}, v.latest[n.domain := n.createdAt], v.state[n.domain := n.payload])
  }

  class Consumer<P> {
    var seen: set<nat>
    var latest: map<string, Time>
    var state: map<string, P>

    function Contents(): View<P>
      reads this
    {
      View(seen, latest, state)
    }

    constructor ()
      ensures Contents() == View({}, map[], map[])
    {
      seen, latest, state := {}, map[], map[];
    }

    /** `genuine`: the signature verifies; without it nothing changes and the call is refused. */
    method Handle(n: Note<P>, genuine: bool) returns (outcome: Option<Outcome>)
      modifies this
      ensures !genuine ==> outcome.None? && Contents() == old(Contents())
      ensures genuine ==> outcome == Some(OutcomeOf(old(Contents()), n)) && Contents() == Handled(old(Contents()), n)
    {
      if !genuine {
        return None;
      }
      if n.id in seen {
        return Some(Duplicate);
      }
      seen := seen + {n.id};
      if n.domain in latest && n.createdAt < latest[n.domain] {
        return Some(Stale);
      }
      latest := latest[n.domain := n.createdAt];
      state := state[n.domain := n.payload];
      outcome := Some(Applied);
    }
  }

  function HandledAll<P>(notes: seq<Note<P>>): View<P> {
    if notes == [] then View({}, map[], map[])
    else Handled(HandledAll(notes[..|notes| - 1]), notes[|notes| - 1])
  }

  /** Ids identify notifications, and within a domain so do timestamps. */
  ghost predicate Ordered<P>(notes: seq<Note<P>>) {
    forall a, b | a in notes && b in notes ::
      (a.id == b.id || (a.domain == b.domain && a.createdAt == b.createdAt)) ==> a == b
  }

  ghost predicate Newest<P>(notes: seq<Note<P>>, n: Note<P>) {
    n in notes && forall m | m in notes && m.domain == n.domain :: m.createdAt <= n.createdAt
  }

  lemma {:induction false} SeenSoFar<P>(notes: seq<Note<P>>, id: nat)
    ensures id in HandledAll(notes).seen <==> exists n | n in notes :: n.id == id
  {
    if notes != [] {
      var before, last := notes[..|notes| - 1], notes[|notes| - 1];
      SeenSoFar(before, id);
      SeenSoFar(before, last.id);
      assert notes == before + [last];
      assert last in notes;
    }
  }

  /** The state of the domain is the payload of its newest notification, if there is one. */
  ghost predicate HoldsNewest<P>(notes: seq<Note<P>>, v: View<P>, domain: string) {
    && (domain in v.state <==> exists n | n in notes :: n.domain == domain)
    && v.latest.Keys == v.state.Keys
    && (domain in v.state ==>
          exists n | n in notes ::
            Newest(notes, n) && n.domain == domain && v.latest[domain] == n.createdAt && v.state[domain] == n.payload)
  }

  /** `notes` is `before` with one more notification. */
  ghost predicate OneMore<P>(notes: seq<Note<P>>, before: seq<Note<P>>, last: Note<P>) {
    && last in notes
    && (forall n | n in before :: n in notes)
    && (forall n | n in notes :: n in before || n == last)
  }

  lemma AnotherArrives<P>(notes: seq<Note<P>>, before: seq<Note<P>>, last: Note<P>, v: View<P>, domain: string)
    requires OneMore(notes, before, last) && HoldsNewest(before, v, domain) && last.domain != domain
    ensures HoldsNewest(notes, Handled(v, last), domain)
  {
    if domain in v.state {
      var n :| n in before && Newest(before, n) && n.domain == domain
               && v.latest[domain] == n.createdAt && v.state[domain] == n.payload;
      assert Newest(notes, n);
    }
  }

  lemma SameArrivesAgain<P>(notes: seq<Note<P>>, before: seq<Note<P>>, last: Note<P>, v: View<P>, domain: string)
    requires OneMore(notes, before, last) && HoldsNewest(before, v, domain) && last in before
    ensures HoldsNewest(notes, v, domain)
  {
    if domain in v.state {
      var n :| n in before && Newest(before, n) && n.domain == domain
               && v.latest[domain] == n.createdAt && v.state[domain] == n.payload;
      assert Newest(notes, n);
    }
  }

  lemma NewOneArrives<P>(notes: seq<Note<P>>, before: seq<Note<P>>, last: Note<P>, v: View<P>)
    requires OneMore(notes, before, last) && HoldsNewest(before, v, last.domain) && last.id !in v.seen
    requires forall n | n in before && n.domain == last.domain :: n.createdAt != last.createdAt
    ensures HoldsNewest(notes, Handled(v, last), last.domain)
  {
    if last.domain in v.state {
      var n :| n in before && Newest(before, n) && n.domain == last.domain
               && v.latest[last.domain] == n.createdAt && v.state[last.domain] == n.payload;
      assert Newest(notes, if n.createdAt < last.createdAt then last else n);
    } else {
      assert Newest(notes, last);
    }
  }

  lemma OneMoreArrives<P>(notes: seq<Note<P>>, before: seq<Note<P>>, last: Note<P>, v: View<P>, domain: string)
    requires OneMore(notes, before, last) && Ordered(notes) && HoldsNewest(before, v, domain)
    requires last.id in v.seen <==> exists n | n in before :: n.id == last.id
    ensures HoldsNewest(notes, Handled(v, last), domain)
  {
    if last.id in v.seen {
      SameArrivesAgain(notes, before, last, v, domain);
    } else if last.domain == domain {
      NewOneArrives(notes, before, last, v);
    } else {
      AnotherArrives(notes, before, last, v, domain);
    }
  }

  /**
   * Whatever the order and however often notifications arrive, the consumer ends with the payload of
   * the newest one delivered for each domain, and with nothing for a domain it heard nothing about.
   */
  lemma {:induction false} Converges<P>(notes: seq<Note<P>>, domain: string)
    requires Ordered(notes)
    ensures HoldsNewest(notes, HandledAll(notes), domain)
  {
    if notes != [] {
      var before, last := notes[..|notes| - 1], notes[|notes| - 1];
      assert notes == before + [last];
      assert OneMore(notes, before, last);
      Converges(before, domain);
      SeenSoFar(before, last.id);
      OneMoreArrives(notes, before, last, HandledAll(before), domain);
    }
  }

  /** Two orders of the same notifications leave the consumer in the same state. */
  lemma OrderDoesNotMatter<P>(one: seq<Note<P>>, two: seq<Note<P>>, domain: string)
    requires Ordered(one) && (forall n :: n in one <==> n in two)
    ensures domain in HandledAll(one).state <==> domain in HandledAll(two).state
    ensures domain in HandledAll(one).state ==> HandledAll(one).state[domain] == HandledAll(two).state[domain]
  {
    Converges(one, domain);
    Converges(two, domain);
  }

  /** It depends on the timestamps: two events with one timestamp leave whichever arrived last. */
  lemma EqualTimestampsCounterexample<P>(a: Note<P>, b: Note<P>)
    requires a.id != b.id && a.domain == b.domain && a.createdAt == b.createdAt && a.payload != b.payload
    ensures HandledAll([a, b]).state == map[a.domain := b.payload]
    ensures HandledAll([b, a]).state == map[a.domain := a.payload]
  {
    assert [a, b][..1] == [a] && [b, a][..1] == [b] && [a][..0] == [] && [b][..0] == [];
    assert HandledAll([a]) == Handled(HandledAll([]), a);
    assert HandledAll([b]) == Handled(HandledAll([]), b);
  }

  // --- with the domains' own event log -----------------------------------------------------------------

  /** The notification about the `i`th event of a domain, whatever snapshot it carries. */
  function NoteOf<P>(row: Row, snapshots: seq<P>, i: nat): Note<P>
    requires i < |row.events| && i < |snapshots|
  {
    Note(i, row.hostname, row.events[i].at, snapshots[i])
  }

  function NotesOf<P>(row: Row, snapshots: seq<P>, delivered: seq<nat>): seq<Note<P>>
    requires forall k | 0 <= k < |delivered| :: delivered[k] < |row.events| && delivered[k] < |snapshots|
  {
    seq(|delivered|, k requires 0 <= k < |delivered| => NoteOf(row, snapshots, delivered[k]))
  }

  ghost predicate LastDelivered(row: Row, delivered: seq<nat>, last: nat) {
    && last < |row.events|
    && (exists k :: 0 <= k < |delivered| && delivered[k] == last)
    && forall k | 0 <= k < |delivered| :: delivered[k] <= last
  }

  lemma OrderedNotes<P>(row: Row, snapshots: seq<P>, delivered: seq<nat>, last: nat)
    requires LastDelivered(row, delivered, last) && |snapshots| == |row.events|
    requires forall i, j | 0 <= i < j < |row.events| :: row.events[i].at < row.events[j].at
    ensures Ordered(NotesOf(row, snapshots, delivered))
    ensures Newest(NotesOf(row, snapshots, delivered), NoteOf(row, snapshots, last))
    ensures forall n | n in NotesOf(row, snapshots, delivered) ::
              n.createdAt == row.events[last].at ==> n == NoteOf(row, snapshots, last)
  {
    var notes := NotesOf(row, snapshots, delivered);
    var k :| 0 <= k < |delivered| && delivered[k] == last;
    assert notes[k] == NoteOf(row, snapshots, last);
    forall n | n in notes
      ensures n.id <= last && n == NoteOf(row, snapshots, n.id)
    {
      var j :| 0 <= j < |notes| && notes[j] == n;
      assert delivered[j] == n.id;
    }
    forall a, b | a in notes && b in notes && a.createdAt == b.createdAt
      ensures a == b
    {
      assert row.events[a.id].at == row.events[b.id].at;
    }
  }

  /**
   * Deliver any events of a domain, in any order and any number of times: the consumer ends with the
   * snapshot taken at the last of them, because the domain's timestamps are strictly increasing.
   */
  lemma ConsumerEndsWithTheLastEvent<P>(r: Worker.Registration, actions: seq<Worker.Action>, snapshots: seq<P>,
                                        delivered: seq<nat>, last: nat)
    requires var row := Worker.Run(Worker.Begin(r), actions).row;
      LastDelivered(row, delivered, last) && |snapshots| == |row.events|
    ensures var row := Worker.Run(Worker.Begin(r), actions).row;
      var v := HandledAll(NotesOf(row, snapshots, delivered));
      row.hostname in v.state && v.state[row.hostname] == snapshots[last]
  {
    DomainGuarantees.EventLogReproducesTheRow(r, actions);
    EndsWithTheLast(Worker.Run(Worker.Begin(r), actions).row, snapshots, delivered, last);
  }

  lemma EndsWithTheLast<P>(row: Row, snapshots: seq<P>, delivered: seq<nat>, last: nat)
    requires LastDelivered(row, delivered, last) && |snapshots| == |row.events|
    requires forall i, j | 0 <= i < j < |row.events| :: row.events[i].at < row.events[j].at
    ensures var v := HandledAll(NotesOf(row, snapshots, delivered));
      row.hostname in v.state && v.state[row.hostname] == snapshots[last]
  {
    var notes := NotesOf(row, snapshots, delivered);
    OrderedNotes(row, snapshots, delivered, last);
    Converges(notes, row.hostname);
    var n :| n in notes && Newest(notes, n) && n.domain == row.hostname && HandledAll(notes).latest[row.hostname] == n.createdAt
             && HandledAll(notes).state[row.hostname] == n.payload;
    assert n == NoteOf(row, snapshots, last);
  }
}
