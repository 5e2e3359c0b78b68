/** Which origin of an application carries its traffic (`app/services/applications.py`, `app/models/application.py`). */
module Origins {
  import opened Wrappers

  datatype OriginStatus = Pending | Verified | Failed | Retired

  datatype Origin = Origin(status: OriginStatus, active: bool)

  datatype Error = OriginNotVerified | OriginInUse

  /** The partial unique index: the database refuses a flush that leaves two active rows. */
  ghost predicate OneActive(origins: seq<Origin>) {
    forall i, j | 0 <= i < |origins| && 0 <= j < |origins| && origins[i].active && origins[j].active :: i == j
  }

  ghost predicate OriginsOk(origins: seq<Origin>) {
    OneActive(origins) && forall o | o in origins :: o.active ==> o.status.Verified?
  }

  class OriginRecord {
    var status: OriginStatus
    var active: bool

    function View(): Origin
      reads this
    {
      Origin(status, active)
    }

    constructor ()
      ensures View() == Origin(Pending, false)
    {
      status, active := Pending, false;
    }

    method RecordVerification(verified: bool)
      modifies this
      ensures View() == VerificationRecorded(old(View()), verified)
    {
      if verified {
        status := Verified;
      } else {
        status := Failed;
        active := false;
      }
    }

    method Retire()
      modifies this
      ensures View() == Origin(Retired, false)
    {
      active := false;
      status := Retired;
    }
  }

  function VerificationRecorded(o: Origin, verified: bool): Origin {
    if verified then o.(status := Verified) else Origin(Failed, false)
  }

  ghost function Views(records: seq<OriginRecord>): seq<Origin>
    reads records
  {
    seq(|records|, i requires 0 <= i < |records| reads records => records[i].View())
  }

  /** All other origins are off after the first flush, and the chosen one is on after the second. */
  function AllOff(origins: seq<Origin>, but: nat): seq<Origin> {
    seq(|origins|, i requires 0 <= i < |origins| => if i == but then origins[i] else origins[i].(active := false))
  }

  function Activated(origins: seq<Origin>, chosen: nat): Result<seq<Origin>, Error>
    requires chosen < |origins|
  {
    if !origins[chosen].status.Verified? then Failure(OriginNotVerified)
    else Success(AllOff(origins, chosen)[chosen := origins[chosen].(active := true)])
  }

  method ActivateOrigin(records: seq<OriginRecord>, chosen: nat) returns (error: Option<Error>)
    requires chosen < |records| && forall i, j | 0 <= i < j < |records| :: records[i] != records[j]
    modifies records
    ensures var activated := Activated(old(Views(records)), chosen);
      if activated.Success? then error.None? && Views(records) == activated.value
      else error == Some(activated.error) && Views(records) == old(Views(records))
  {
    if !records[chosen].status.Verified? {
      return Some(OriginNotVerified);
    }
    ghost var before := Views(records);
    for i := 0 to |records|
      invariant forall j | 0 <= j < i :: records[j].View() == AllOff(before, chosen)[j]
      invariant forall j | i <= j < |records| :: records[j].View() == before[j]
    {
      if i != chosen && records[i].active {
        records[i].active := false;
      }
    }
    assert Views(records) == AllOff(before, chosen);
    records[chosen].active := true;
    assert Views(records) == AllOff(before, chosen)[chosen := before[chosen].(active := true)];
    error := None;
  }

  /** Neither flush of an activation violates the index, and afterwards exactly the chosen origin is active. */
  lemma ActivatingKeepsTheIndex(origins: seq<Origin>, chosen: nat)
    requires OriginsOk(origins) && chosen < |origins| && Activated(origins, chosen).Success?
    ensures OneActive(AllOff(origins, chosen))
    ensures var after := Activated(origins, chosen).value;
      OriginsOk(after) && forall i | 0 <= i < |after| :: after[i].active <==> i == chosen
  {
  }

  datatype Action =
    | Register
    | RecordVerification(i: nat, verified: bool)
    | Activate(i: nat)
    | Retire(i: nat)
    | Delete(i: nat)

  function Step(origins: seq<Origin>, a: Action): seq<Origin> {
    match a
    case Register => origins + [Origin(Pending, false)]
    case RecordVerification(i, verified) =>
      if i < |origins| then origins[i := VerificationRecorded(origins[i], verified)] else origins
    case Activate(i) =>
      if i < |origins| && Activated(origins, i).Success? then Activated(origins, i).value else origins
    case Retire(i) => if i < |origins| then origins[i := Origin(Retired, false)] else origins
    case Delete(i) => if i < |origins| && !origins[i].active then origins[..i] + origins[i + 1..] else origins
  }

  function Run(actions: seq<Action>): seq<Origin> {
    if actions == [] then [] else Step(Run(actions[..|actions| - 1]), actions[|actions| - 1])
  }

  lemma StepOk(origins: seq<Origin>, a: Action)
    requires OriginsOk(origins)
    ensures OriginsOk(Step(origins, a))
  {
  }

  /** Over any run an application has at most one active origin, and it is a verified one. */
  lemma {:induction false} ActiveIsVerified(actions: seq<Action>)
    ensures OriginsOk(Run(actions))
  {
    if actions != [] {
      ActiveIsVerified(actions[..|actions| - 1]);
      StepOk(Run(actions[..|actions| - 1]), actions[|actions| - 1]);
    }
  }
}
