/**
 * Composing resolvers: a chain tries its links strictly in order and settles on
 * the first success; a link after a success is never invoked.
 */
module Chain {
  import opened Wrappers
  import opened Config
  import opened Sources

  /** A resolver that a chain can hold: one of the leaf resolvers, or a fixed value. */
  datatype Source =
    | Constant(config: Configuration)
    | EnvSource
    | IniSource(profile: Option<string>, filename: Option<string>)
    | FallbackSource(region: string)
    /** A caller-supplied closure, given the same environment and filesystem. */
    | Closure(f: World -> Outcome)

  /** What invoking one link yields against the given environment and filesystem. */
  function Resolve(s: Source, w: World): (r: Outcome)
    ensures s.Constant? ==> r == Success(s.config)
    ensures s.EnvSource? ==> r == Env(w.env)
    ensures s.IniSource? ==> r == Ini(s.profile, s.filename, w)
    ensures s.FallbackSource? ==> r.Success? && r == Fallback(s.region)
  {
    match s
    case Constant(c) => Success(c)
    case EnvSource => Env(w.env)
    case IniSource(profile, filename) => Ini(profile, filename, w)
    case FallbackSource(region) => Fallback(region)
    case Closure(f) => f(w)
  }

  const NoProvidersMessage: string := "No providers in chain"

  /**
   * Building a chain. Building one from no links fails at once, before anything is
   * resolved, with an invalid-argument error rather than a configuration failure.
   */
  function MakeChain(links: seq<Source>): (r: Result<seq<Source>, Error>)
    ensures r.Failure? <==> links == []
    ensures r.Failure? ==> r.error == InvalidArgument(NoProvidersMessage)
    ensures r.Success? ==> r.value == links
  {
    if links == [] then Failure(InvalidArgument(NoProvidersMessage)) else Success(links)
  }

  /**
   * What a chain settles on: the first link's outcome if it succeeds, otherwise the
   * rest of the chain's; the last link's failure when every link fails.
   */
  function ChainResolve(links: seq<Source>, w: World): (r: Outcome)
    requires links != []
    ensures r.Success? ==> exists j :: 0 <= j < |links| && Resolve(links[j], w) == r
    ensures r.Failure? ==> r == Resolve(links[|links| - 1], w)
    decreases |links|
  {
    var first := Resolve(links[0], w);
    if first.Success? || |links| == 1 then first else ChainResolve(links[1..], w)
  }

  /** Links that all fail can be skipped without changing what the chain settles on. */
  lemma {:induction false} ChainSkipsFailures(links: seq<Source>, w: World, k: nat)
    requires k < |links|
    requires forall j :: 0 <= j < k ==> Resolve(links[j], w).Failure?
    ensures ChainResolve(links, w) == ChainResolve(links[k..], w)
    decreases k
  {
    if k > 0 {
      assert Resolve(links[0], w).Failure?;
      assert links[1..][k - 1..] == links[k..];
      ChainSkipsFailures(links[1..], w, k - 1);
    }
  }

  /** The first succeeding link decides the chain. */
  lemma ChainFirstSuccessWins(links: seq<Source>, w: World, i: nat)
    requires i < |links| && Resolve(links[i], w).Success?
    requires forall j :: 0 <= j < i ==> Resolve(links[j], w).Failure?
    ensures ChainResolve(links, w) == Resolve(links[i], w)
  {
    ChainSkipsFailures(links, w, i);
  }

  /** When every link fails, the chain fails with the last link's reason. */
  lemma ChainAllFail(links: seq<Source>, w: World)
    requires links != []
    requires forall j :: 0 <= j < |links| ==> Resolve(links[j], w).Failure?
    ensures ChainResolve(links, w) == Resolve(links[|links| - 1], w)
  {
  }

  /** A chain succeeds exactly when one of its links does. */
  lemma {:induction false} ChainSucceedsIff(links: seq<Source>, w: World)
    requires links != []
    ensures ChainResolve(links, w).Success? <==> exists j :: 0 <= j < |links| && Resolve(links[j], w).Success?
    decreases |links|
  {
    if Resolve(links[0], w).Failure? && |links| > 1 {
      ChainSucceedsIff(links[1..], w);
      if exists j :: 0 <= j < |links| && Resolve(links[j], w).Success? {
        var j :| 0 <= j < |links| && Resolve(links[j], w).Success?;
        assert links[1..][j - 1] == links[j];
      }
      if exists j :: 0 <= j < |links| - 1 && Resolve(links[1..][j], w).Success? {
        var j :| 0 <= j < |links| - 1 && Resolve(links[1..][j], w).Success?;
        assert Resolve(links[j + 1], w).Success?;
      }
    }
  }

  /**
   * Invoking a chain: each link is invoked in turn until one succeeds or none is
   * left. `invoked` lists, in order, the positions of the links that were invoked.
   */
  method RunChain(links: seq<Source>, w: World) returns (r: Outcome, invoked: seq<nat>)
    requires links != []
    ensures r == ChainResolve(links, w)
    ensures 1 <= |invoked| <= |links|
    ensures forall k :: 0 <= k < |invoked| ==> invoked[k] == k
    ensures forall k :: 0 <= k < |invoked| - 1 ==> Resolve(links[k], w).Failure?
    ensures r == Resolve(links[|invoked| - 1], w)
    ensures r.Failure? ==> |invoked| == |links|
  {
    r := Resolve(links[0], w);
    invoked := [0];
    while r.Failure? && |invoked| < |links|
      invariant 1 <= |invoked| <= |links|
      invariant forall k :: 0 <= k < |invoked| ==> invoked[k] == k
      invariant forall k :: 0 <= k < |invoked| - 1 ==> Resolve(links[k], w).Failure?
      invariant r == Resolve(links[|invoked| - 1], w)
      decreases |links| - |invoked|
    {
      var next := |invoked|;
      r := Resolve(links[next], w);
      invoked := invoked + [next];
    }
    ChainSkipsFailures(links, w, |invoked| - 1);
  }
}
