/** DNS as one check pass sees it, and the CNAME walk of `app/dns/resolver.py`. */
module Resolver {
  import opened Wrappers

  datatype DnsError = NameNotFound | Unavailable

  // The answers one pass gets. A name without an entry does not exist (NXDOMAIN).
  datatype Resolver = Resolver(
    txts: map<string, Result<seq<string>, DnsError>>,
    cnames: map<string, Result<Option<string>, DnsError>>)
  {
    function Txt(name: string): Result<seq<string>, DnsError> {
      if name in txts then txts[name] else Failure(NameNotFound)
    }

    function Cname(name: string): Result<Option<string>, DnsError> {
      if name in cnames then cnames[name] else Failure(NameNotFound)
    }
  }

  const MAX_CNAME_HOPS: nat := 8

  /** The name reached after exactly `n` CNAMEs, or None once a lookup fails or has no CNAME. */
  function Hop(dns: Resolver, name: string, n: nat): Option<string> {
    if n == 0 then Some(name)
    else
      var before := Hop(dns, name, n - 1);
      if before.None? then None
      else
        match dns.Cname(before.value)
        case Success(target) => target
        case Failure(_) => None
  }

  /** `target` is more than `after` and at most `MAX_CNAME_HOPS` CNAMEs away from `name`. */
  ghost predicate ReachesAfter(dns: Resolver, name: string, target: string, after: nat) {
    exists n: nat :: after < n <= MAX_CNAME_HOPS && Hop(dns, name, n) == Some(target)
  }

  /** `target` is one to `MAX_CNAME_HOPS` CNAMEs away from `name`. */
  ghost predicate Reaches(dns: Resolver, name: string, target: string) {
    ReachesAfter(dns, name, target, 0)
  }

  /** The loop of `cname_chain` from hop `|chain|` on; `chain` holds the targets so far. */
  function Walk(dns: Resolver, name: string, stopAt: string, chain: seq<string>)
    : Result<seq<string>, DnsError>
    decreases MAX_CNAME_HOPS - |chain|
  {
    var current := if chain == [] then name else chain[|chain| - 1];
    if |chain| >= MAX_CNAME_HOPS then Success(chain)
    else
      match dns.Cname(current)
      case Failure(error) => if chain == [] then Failure(error) else Success(chain)
      case Success(None) => Success(chain)
      case Success(Some(target)) =>
        if target in chain || target == current then Success(chain)
        else if target == stopAt then Success(chain + [target])
        else Walk(dns, name, stopAt, chain + [target])
  }

  function CnameChain(dns: Resolver, name: string, stopAt: string): Result<seq<string>, DnsError> {
    Walk(dns, name, stopAt, [])
  }

  ghost predicate Distinct<T>(s: seq<T>) {
    forall i, j | 0 <= i < j < |s| :: s[i] != s[j]
  }

  /** `chain` lists the first CNAMEs from `name`, each once. */
  ghost predicate IsPath(dns: Resolver, name: string, chain: seq<string>) {
    && Distinct(chain)
    && forall i | 0 <= i < |chain| :: Hop(dns, name, i + 1) == Some(chain[i])
  }

  /** The walk as the service runs it: one loop that updates `chain` and `current`. */
  method FollowCnames(dns: Resolver, name: string, stopAt: string)
    returns (result: Result<seq<string>, DnsError>)
    ensures result == CnameChain(dns, name, stopAt)
  {
    var chain: seq<string> := [];
    var current := name;
    for hop := 0 to MAX_CNAME_HOPS
      invariant |chain| == hop
      invariant current == if chain == [] then name else chain[|chain| - 1]
      invariant CnameChain(dns, name, stopAt) == Walk(dns, name, stopAt, chain)
    {
      var answer := dns.Cname(current);
      if answer.Failure? {
        if hop == 0 {
          return Failure(answer.error);
        }
        return Success(chain);
      }
      if answer.value.None? || answer.value.value in chain || answer.value.value == current {
        return Success(chain);
      }
      chain := chain + [answer.value.value];
      if answer.value.value == stopAt {
        return Success(chain);
      }
      current := answer.value.value;
    }
    return Success(chain);
  }

  /** Two hops with one name make the walk periodic. */
  lemma {:induction false} Periodic(dns: Resolver, name: string, i: nat, j: nat, k: nat)
    requires Hop(dns, name, i) == Hop(dns, name, j)
    ensures Hop(dns, name, i + k) == Hop(dns, name, j + k)
  {
    if k > 0 {
      Periodic(dns, name, i, j, k - 1);
    }
  }

  /** Past a repeated name the walk meets nothing it has not met before. */
  lemma {:induction false} LoopAddsNothing(dns: Resolver, name: string, i: nat, j: nat, n: nat)
    requires i < j <= n && Hop(dns, name, i) == Hop(dns, name, j)
    ensures exists m: nat :: i <= m < j && Hop(dns, name, m) == Hop(dns, name, n)
    decreases n
  {
    Periodic(dns, name, i, j, n - j);
    var earlier := i + (n - j);
    assert Hop(dns, name, earlier) == Hop(dns, name, n);
    if earlier >= j {
      LoopAddsNothing(dns, name, i, j, earlier);
    }
  }

  lemma {:induction false} HopEnds(dns: Resolver, name: string, i: nat, n: nat)
    requires i <= n && Hop(dns, name, i).None?
    ensures Hop(dns, name, n).None?
  {
    if i < n {
      HopEnds(dns, name, i, n - 1);
    }
  }

  lemma {:induction false} HopOfPath(dns: Resolver, name: string, chain: seq<string>)
    requires IsPath(dns, name, chain)
    ensures Hop(dns, name, |chain|) == Some(if chain == [] then name else chain[|chain| - 1])
  {
  }

  /** A name met at hop `n` beyond the end of a path that stops by repeating is on the path. */
  lemma RepeatMeansMet(dns: Resolver, name: string, chain: seq<string>, i: nat, n: nat, target: string)
    requires IsPath(dns, name, chain)
    requires 1 <= i <= |chain| < n && Hop(dns, name, i) == Hop(dns, name, |chain| + 1)
    requires Hop(dns, name, n) == Some(target)
    ensures target in chain
  {
    LoopAddsNothing(dns, name, i, |chain| + 1, n);
    var m: nat :| i <= m < |chain| + 1 && Hop(dns, name, m) == Hop(dns, name, n);
    assert Hop(dns, name, (m - 1) + 1) == Some(chain[m - 1]);
  }

  /**
   * What a walk in progress returns: the path so far, extended; and `stopAt` is on it exactly
   * when it is on the path already or lies at one of the hops still allowed.
   */
  lemma {:induction false} WalkFinds(dns: Resolver, name: string, stopAt: string, chain: seq<string>)
    requires |chain| <= MAX_CNAME_HOPS && IsPath(dns, name, chain) && stopAt !in chain
    requires chain == [] ==> dns.Cname(name).Success?
    requires Hop(dns, name, 1) != Some(name)
    ensures var result := Walk(dns, name, stopAt, chain);
      && result.Success?
      && chain <= result.value
      && |result.value| <= MAX_CNAME_HOPS
      && IsPath(dns, name, result.value)
      && (stopAt in result.value <==> ReachesAfter(dns, name, stopAt, |chain|))
    decreases MAX_CNAME_HOPS - |chain|
  {
    var current := if chain == [] then name else chain[|chain| - 1];
    HopOfPath(dns, name, chain);
    var next := Hop(dns, name, |chain| + 1);
    if |chain| < MAX_CNAME_HOPS {
      if next.None? {
        forall n: nat | |chain| < n
          ensures Hop(dns, name, n) != Some(stopAt)
        {
          HopEnds(dns, name, |chain| + 1, n);
        }
      } else if next.value in chain || next.value == current {
        if next.value in chain {
          var k :| 0 <= k < |chain| && chain[k] == next.value;
          forall n: nat | |chain| < n
            ensures Hop(dns, name, n) != Some(stopAt)
          {
            if Hop(dns, name, n) == Some(stopAt) {
              assert Hop(dns, name, k + 1) == Some(chain[k]);
              RepeatMeansMet(dns, name, chain, k + 1, n, stopAt);
            }
          }
        }
      } else {
        var longer := chain + [next.value];
        assert IsPath(dns, name, longer);
        if next.value == stopAt {
          assert stopAt in longer;
          assert Hop(dns, name, |chain| + 1) == Some(stopAt);
        } else {
          WalkFinds(dns, name, stopAt, longer);
          assert chain <= longer;
          if ReachesAfter(dns, name, stopAt, |chain|) {
            var n: nat :| |chain| < n <= MAX_CNAME_HOPS && Hop(dns, name, n) == Some(stopAt);
            assert n != |chain| + 1;
          }
        }
      }
    }
  }

  /**
   * The walk fails only when the first lookup does; otherwise it is a duplicate-free path of at
   * most eight hops, and it holds the wanted name exactly when that name is one to eight CNAMEs
   * away. A name whose CNAME is itself has an empty chain.
   */
  lemma ChainIsBoundedReachability(dns: Resolver, name: string, stopAt: string)
    ensures CnameChain(dns, name, stopAt).Failure? <==> dns.Cname(name).Failure?
    ensures dns.Cname(name).Success? ==>
      var chain := CnameChain(dns, name, stopAt).value;
      && |chain| <= MAX_CNAME_HOPS
      && IsPath(dns, name, chain)
      && (stopAt in chain <==> Hop(dns, name, 1) != Some(name) && Reaches(dns, name, stopAt))
  {
    assert Hop(dns, name, 0) == Some(name);
    if dns.Cname(name).Success? {
      if Hop(dns, name, 1) == Some(name) {
        assert CnameChain(dns, name, stopAt) == Success([]);
      } else {
        WalkFinds(dns, name, stopAt, []);
      }
    }
  }

  /** For every other target than the start name, the self-loop needs no mention. */
  lemma ChainFindsOtherTargets(dns: Resolver, name: string, stopAt: string)
    requires stopAt != name && dns.Cname(name).Success?
    ensures CnameChain(dns, name, stopAt).Success?
    ensures stopAt in CnameChain(dns, name, stopAt).value <==> Reaches(dns, name, stopAt)
  {
    ChainIsBoundedReachability(dns, name, stopAt);
    if Hop(dns, name, 1) == Some(name) && Reaches(dns, name, stopAt) {
      var n: nat :| 0 < n <= MAX_CNAME_HOPS && Hop(dns, name, n) == Some(stopAt);
      LoopAddsNothing(dns, name, 0, 1, n);
    }
  }
}
