/**
 * One hostname's traffic over any run of the edge and the reconcilers (`app/edge/reconcile.py`,
 * `app/services/traffic.py`): requests, readings, restarts, configuration changes, failed savepoints
 * and transactions that are rolled back. Which start of Caddy a number belongs to is history.
 */
module Metering {
  import opened Wrappers
  import opened Traffic

  // The host's baseline, the start of Caddy it was read from, and what of the requests so far was added
  // to applications, and what is lost to them.
  datatype Book = Book(base: Count, start: nat, credited: Count, lost: Count)

  // A reading; a host Caddy has not served since it started is not listed.
  datatype Seen = Seen(count: Count, start: nat, listed: bool)

  datatype Phase = Began | HasRead(seen: Seen) | Recorded | Changed | Settled

  // A reconciler's transaction and what it has changed so far.
  datatype Transaction = Transaction(book: Book, phase: Phase)

  // Caddy's counter since its `start`th start, everything ever served, the committed book, and the open
  // transaction (the lock allows one).
  datatype State = State(start: nat, count: Count, served: Count, book: Book, open: Option<Transaction>)

  datatype Action =
    | Serve(count: Count)
    | Restart
    | Begin
    | Read
    | FailRead
    | Record(owned: bool, kept: bool, expired: bool)
    | Apply(changed: bool)
    | Reset(kept: bool)
    | Commit
    | Rollback

  function Minus(a: Count, b: Count): Count
    requires a.AtLeast(b)
  {
    Count(a.requests - b.requests, a.bytes - b.bytes)
  }

  /** What Caddy has served since its counter stood at `count` in its `start`th start: all of it, if it started again. */
  function Since(s: State, count: Count, start: nat): Count {
    if start == s.start && s.count.AtLeast(count) then Minus(s.count, count) else s.count
  }

  function Unread(s: State, book: Book): Count {
    Since(s, book.base, book.start)
  }

  /** What a reading shows that the book does not have yet. */
  function Due(book: Book, seen: Seen): Count {
    if book.start == seen.start && seen.count.AtLeast(book.base) then Minus(seen.count, book.base) else seen.count
  }

  /** The counter has reached the baseline again since a restart, so the restart cannot be seen. */
  predicate Unnoticed(book: Book, seen: Seen) {
    book.start != seen.start && seen.listed && seen.count.AtLeast(book.base)
  }

  /**
   * What recording a reading gives up: nothing, if the host has an owner and a restart shows. Without an
   * owner it is what the reading shows, and after an unnoticed restart the baseline. A reading that is
   * not kept gives up what can no longer be read.
   */
  function GivenUp(s: State, book: Book, seen: Seen, owned: bool, kept: bool): Count {
    if !kept then if seen.start < s.start then Due(book, seen) else NOTHING
    else if !owned then Due(book, seen)
    else if Unnoticed(book, seen) then book.base
    else NOTHING
  }

  function Losing(book: Book, count: Count): Book {
    book.(lost := book.lost.Plus(count))
  }

  /** What recording a reading makes of the book; without an owner the increase is dropped. */
  function RecordedBook(book: Book, seen: Seen, owned: bool, expired: bool): Book {
    if seen.listed then
      book.(base := seen.count, start := seen.start,
            credited := if owned then book.credited.Plus(Added(book.base, seen.count)) else book.credited)
    else if expired then book.(base := NOTHING)
    else book
  }

  /** What a restart loses to the transaction: all since its reading, or else since its baseline. */
  function Missed(s: State, t: Transaction): Count {
    if t.phase.HasRead? then Since(s, t.phase.seen.count, t.phase.seen.start) else Unread(s, t.book)
  }

  /** Caddy starts again at zero, and what it served since it was last read is lost. */
  function Restarted(s: State): State {
    var open := if s.open.None? then None
                else Some(s.open.value.(book := Losing(s.open.value.book, Missed(s, s.open.value))));
    s.(start := s.start + 1, count := NOTHING, book := Losing(s.book, Unread(s, s.book)), open := open)
  }

  function InTransaction(s: State, t: Transaction, a: Action): State
    requires s.open == Some(t)
  {
    match (a, t.phase)
    case (Read, Began) =>
      s.(open := Some(t.(phase := HasRead(Seen(s.count, s.start, s.count != NOTHING)))))
    case (FailRead, Began) => s.(open := Some(t.(phase := Recorded)))
    case (Record(owned, kept, expired), HasRead(seen)) =>
      var book := if kept then RecordedBook(t.book, seen, owned, expired) else t.book;
      s.(open := Some(Transaction(Losing(book, GivenUp(s, t.book, seen, owned, kept)), Recorded)))
    case (Apply(changed), Recorded) =>
      if !changed then s.(open := Some(t.(phase := Settled)))
      else
        var after := Restarted(s);
        after.(open := Some(after.open.value.(phase := Changed)))
    case (Reset(kept), Changed) =>
      s.(open := Some(Transaction(if kept then t.book.(base := NOTHING, start := s.start) else t.book, Settled)))
    case (Commit, Settled) => s.(book := t.book, open := None)
    case (Rollback, _) => s.(open := None)
    case _ => s
  }

  function Step(s: State, a: Action): State {
    match a
    case Serve(count) => s.(count := s.count.Plus(count), served := s.served.Plus(count))
    case Restart => Restarted(s)
    case Begin => if s.open.None? then s.(open := Some(Transaction(s.book, Began))) else s
    case _ => if s.open.Some? then InTransaction(s, s.open.value, a) else s
  }

  const FIRST: State := State(0, NOTHING, NOTHING, Book(NOTHING, 0, NOTHING, NOTHING), None)

  function Run(actions: seq<Action>): State {
    if actions == [] then FIRST else Step(Run(actions[..|actions| - 1]), actions[|actions| - 1])
  }

  // --- never too much --------------------------------------------------------------------------------

  /** What is credited, and what the book could still credit from the running counter, was served. */
  ghost predicate Covered(s: State, book: Book) {
    if book.start == s.start then
      s.count.AtLeast(book.base) && s.served.AtLeast(book.credited.Plus(Minus(s.count, book.base)))
    else book.start < s.start && s.served.AtLeast(book.credited.Plus(s.count))
  }

  /** The same for a reading that is not recorded yet, also when Caddy has started again since. */
  ghost predicate SeenCovered(s: State, book: Book, seen: Seen) {
    && book.start <= seen.start <= s.start
    && (seen.listed <==> seen.count != NOTHING)
    && (book.start == seen.start ==> seen.count.AtLeast(book.base))
    && if seen.start == s.start then s.count.AtLeast(seen.count)
       else if book.start == seen.start then
         s.served.AtLeast(book.credited.Plus(Minus(seen.count, book.base)).Plus(s.count))
       else s.served.AtLeast(book.credited.Plus(seen.count).Plus(s.count))
  }

  ghost predicate OpenInv(s: State, t: Transaction) {
    && Covered(s, t.book)
    && (t.phase.HasRead? ==> SeenCovered(s, t.book, t.phase.seen))
    && (t.phase.Changed? ==> t.book.start < s.start)
  }

  ghost predicate Inv(s: State) {
    Covered(s, s.book) && (s.open.Some? ==> OpenInv(s, s.open.value))
  }

  lemma RecordCovered(s: State, book: Book, seen: Seen, owned: bool, expired: bool)
    requires Covered(s, book) && SeenCovered(s, book, seen)
    ensures Covered(s, RecordedBook(book, seen, owned, expired))
  {
  }

  lemma ServeInv(s: State, count: Count)
    requires Inv(s)
    ensures Inv(Step(s, Serve(count)))
  {
  }

  lemma RestartInv(s: State)
    requires Inv(s)
    ensures Inv(Step(s, Restart))
  {
  }

  lemma ReadInv(s: State, t: Transaction)
    requires Inv(s) && s.open == Some(t)
    ensures Inv(InTransaction(s, t, Read))
  {
  }

  lemma RecordInv(s: State, t: Transaction, owned: bool, kept: bool, expired: bool)
    requires Inv(s) && s.open == Some(t)
    ensures Inv(InTransaction(s, t, Record(owned, kept, expired)))
  {
    if t.phase.HasRead? {
      RecordCovered(s, t.book, t.phase.seen, owned, expired);
    }
  }

  lemma ApplyInv(s: State, t: Transaction, changed: bool)
    requires Inv(s) && s.open == Some(t)
    ensures Inv(InTransaction(s, t, Apply(changed)))
  {
  }

  lemma ResetInv(s: State, t: Transaction, kept: bool)
    requires Inv(s) && s.open == Some(t)
    ensures Inv(InTransaction(s, t, Reset(kept)))
  {
  }

  lemma ClosingInv(s: State, t: Transaction, a: Action)
    requires Inv(s) && s.open == Some(t) && (a.FailRead? || a.Commit? || a.Rollback?)
    ensures Inv(InTransaction(s, t, a))
  {
  }

  lemma TransactionInv(s: State, t: Transaction, a: Action)
    requires Inv(s) && s.open == Some(t)
    ensures Inv(InTransaction(s, t, a))
  {
    match a {
      case Read => ReadInv(s, t);
      case Record(owned, kept, expired) => RecordInv(s, t, owned, kept, expired);
      case Apply(changed) => ApplyInv(s, t, changed);
      case Reset(kept) => ResetInv(s, t, kept);
      case Serve(_) =>
      case Restart =>
      case Begin =>
      case _ => ClosingInv(s, t, a);
    }
  }

  lemma StepInv(s: State, a: Action)
    requires Inv(s)
    ensures Inv(Step(s, a))
  {
    match a {
      case Serve(count) => ServeInv(s, count);
      case Restart => RestartInv(s);
      case Begin =>
      case _ =>
        if s.open.Some? {
          TransactionInv(s, s.open.value, a);
        }
    }
  }

  /** However it runs, no more requests and bytes are recorded for a host than were served on it. */
  lemma {:induction false} NeverOvercounts(actions: seq<Action>)
    ensures Inv(Run(actions))
    ensures Run(actions).served.AtLeast(Run(actions).book.credited)
  {
    if actions != [] {
      NeverOvercounts(actions[..|actions| - 1]);
      StepInv(Run(actions[..|actions| - 1]), actions[|actions| - 1]);
    }
  }

  // --- and exactly how much less ---------------------------------------------------------------------

  ghost predicate Adds(total: Count, a: Count, b: Count, c: Count) {
    total.requests == a.requests + b.requests + c.requests && total.bytes == a.bytes + b.bytes + c.bytes
  }

  /** Everything served is recorded, lost, or still to be read. */
  ghost predicate Accounted(s: State, book: Book) {
    Adds(s.served, book.credited, book.lost, Unread(s, book))
  }

  /** With a reading at hand, what is still to be read is what it shows and what was served since. */
  ghost predicate SeenAccounted(s: State, book: Book, seen: Seen) {
    Adds(s.served, book.credited, book.lost, Due(book, seen).Plus(Since(s, seen.count, seen.start)))
  }

  ghost predicate OpenAccounted(s: State, t: Transaction) {
    if t.phase.HasRead? then SeenAccounted(s, t.book, t.phase.seen) else Accounted(s, t.book)
  }

  ghost predicate ExactInv(s: State) {
    Inv(s) && Accounted(s, s.book) && (s.open.Some? ==> OpenAccounted(s, s.open.value))
  }

  lemma RecordAccounted(s: State, book: Book, seen: Seen, owned: bool, kept: bool, expired: bool)
    requires Covered(s, book) && SeenCovered(s, book, seen) && SeenAccounted(s, book, seen)
    ensures var recorded := if kept then RecordedBook(book, seen, owned, expired) else book;
      Accounted(s, Losing(recorded, GivenUp(s, book, seen, owned, kept)))
  {
  }

  lemma RestartAccounted(s: State)
    requires ExactInv(s)
    ensures var after := Restarted(s);
      Accounted(after, after.book) && (after.open.Some? ==> OpenAccounted(after, after.open.value))
  {
  }

  /** The account holds of the committed book and of the open transaction's. */
  ghost predicate BothAccounted(s: State) {
    Accounted(s, s.book) && (s.open.Some? ==> OpenAccounted(s, s.open.value))
  }

  lemma RecordStepAccounted(s: State, t: Transaction, a: Action)
    requires ExactInv(s) && s.open == Some(t) && a.Record?
    ensures BothAccounted(InTransaction(s, t, a))
  {
    if t.phase.HasRead? {
      RecordAccounted(s, t.book, t.phase.seen, a.owned, a.kept, a.expired);
    }
  }

  lemma ApplyAccounted(s: State, t: Transaction, changed: bool)
    requires ExactInv(s) && s.open == Some(t)
    ensures BothAccounted(InTransaction(s, t, Apply(changed)))
  {
    RestartAccounted(s);
  }

  lemma ReadAccounted(s: State, t: Transaction)
    requires ExactInv(s) && s.open == Some(t)
    ensures BothAccounted(InTransaction(s, t, Read))
  {
  }

  lemma ResetAccounted(s: State, t: Transaction, kept: bool)
    requires ExactInv(s) && s.open == Some(t)
    ensures BothAccounted(InTransaction(s, t, Reset(kept)))
  {
  }

  lemma ClosingAccounted(s: State, t: Transaction, a: Action)
    requires ExactInv(s) && s.open == Some(t) && (a.FailRead? || a.Commit? || a.Rollback?)
    ensures BothAccounted(InTransaction(s, t, a))
  {
  }

  lemma TransactionAccounted(s: State, t: Transaction, a: Action)
    requires ExactInv(s) && s.open == Some(t)
    ensures BothAccounted(InTransaction(s, t, a))
  {
    match a {
      case Read => ReadAccounted(s, t);
      case Record(_, _, _) => RecordStepAccounted(s, t, a);
      case Apply(changed) => ApplyAccounted(s, t, changed);
      case Reset(kept) => ResetAccounted(s, t, kept);
      case Serve(_) =>
      case Restart =>
      case Begin =>
      case _ => ClosingAccounted(s, t, a);
    }
  }

  lemma ServeAccounted(s: State, count: Count)
    requires ExactInv(s)
    ensures BothAccounted(Step(s, Serve(count)))
  {
  }

  lemma StepAccounted(s: State, a: Action)
    requires ExactInv(s)
    ensures ExactInv(Step(s, a))
  {
    StepInv(s, a);
    match a {
      case Serve(count) => ServeAccounted(s, count);
      case Restart => RestartAccounted(s);
      case Begin =>
      case _ =>
        if s.open.Some? {
          TransactionAccounted(s, s.open.value, a);
        }
    }
  }

  lemma {:induction false} RunAccounted(actions: seq<Action>)
    ensures ExactInv(Run(actions))
  {
    if actions != [] {
      RunAccounted(actions[..|actions| - 1]);
      StepAccounted(Run(actions[..|actions| - 1]), actions[|actions| - 1]);
    }
  }

  lemma AccountIs(s: State)
    requires ExactInv(s)
    ensures s.book.start == s.start ==>
      s.count.AtLeast(s.book.base) && Adds(s.served, s.book.credited, s.book.lost, Minus(s.count, s.book.base))
    ensures s.book.start != s.start ==> Adds(s.served, s.book.credited, s.book.lost, s.count)
  {
  }

  /**
   * However it runs, what is recorded for a host, what is lost and what is still to be read add up to
   * what was served on it: the counter's growth since the baseline, or all of it after a restart.
   */
  lemma EverythingIsAccountedFor(actions: seq<Action>)
    ensures var s := Run(actions);
      && (s.book.start == s.start ==>
            s.count.AtLeast(s.book.base) && Adds(s.served, s.book.credited, s.book.lost, Minus(s.count, s.book.base)))
      && (s.book.start != s.start ==> Adds(s.served, s.book.credited, s.book.lost, s.count))
  {
    RunAccounted(actions);
    AccountIs(Run(actions));
  }

  /** What a reading of an owned host adds: its growth, or all of it once a restart shows; unnoticed, the baseline is lost. */
  ghost predicate Credits(before: Book, seen: Seen, after: Book) {
    && after.base == seen.count && after.start == seen.start
    && if before.start == seen.start then
         && seen.count.AtLeast(before.base) && after.lost == before.lost
         && after.credited.Plus(before.base) == before.credited.Plus(seen.count)
       else if seen.count.requests < before.base.requests || seen.count.bytes < before.base.bytes then
         after.lost == before.lost && after.credited == before.credited.Plus(seen.count)
       else
         after.credited.Plus(after.lost) == before.credited.Plus(before.lost).Plus(seen.count)
           && after.lost == before.lost.Plus(before.base)
  }

  lemma ListedReadingCredits(s: State, t: Transaction, expired: bool)
    requires Inv(s) && s.open == Some(t) && t.phase.HasRead? && t.phase.seen.listed
    ensures var after := Step(s, Record(true, true, expired));
      after.open.Some? && Credits(t.book, t.phase.seen, after.open.value.book)
  {
  }

  /** Recording a reading of an owned host, in any run: restarts count from zero, and lose nothing of what is read after them. */
  lemma ReadingsAreCredited(actions: seq<Action>, expired: bool)
    ensures var s, after := Run(actions), Run(actions + [Record(true, true, expired)]);
      s.open.Some? && s.open.value.phase.HasRead? && s.open.value.phase.seen.listed ==>
        after.open.Some? && Credits(s.open.value.book, s.open.value.phase.seen, after.open.value.book)
  {
    NeverOvercounts(actions);
    var s := Run(actions);
    assert (actions + [Record(true, true, expired)])[..|actions|] == actions;
    if s.open.Some? && s.open.value.phase.HasRead? && s.open.value.phase.seen.listed {
      ListedReadingCredits(s, s.open.value, expired);
    }
  }

  /** A restart by itself, or a new configuration, loses what was served since the last reading or baseline, and no more. */
  lemma OnlyRestartsLose(s: State, a: Action)
    requires ExactInv(s)
    ensures var after := Step(s, a);
      if after.start == s.start then a.Commit? || after.book.lost == s.book.lost
      else after.book.lost == s.book.lost.Plus(if s.book.start == s.start then Minus(s.count, s.book.base) else s.count)
    ensures var after := Step(s, a);
      s.open.Some? && after.open.Some? && after.start == s.start && !a.Record? ==> after.open.value.book.lost == s.open.value.book.lost
  {
  }
}
