/**
  Resolution of a comma-separated host list: split on `,`, trim each token,
  look it up, and stop at the first token that does not resolve.
*/
module HostResolution {
  import opened Wrappers
  import opened Java

  /** A name-service lookup: the address, or the message of its `UnknownHostException`. */
  type Resolver = string -> Result<InetAddress, string>

  /** Every trimmed token in `tokens` resolves. */
  predicate AllResolve(tokens: seq<string>, resolve: Resolver)
  {
    forall i :: 0 <= i < |tokens| ==> resolve(Trim(tokens[i])).Success?
  }

  /**
    Resolves every token in order, stopping at the first one that does not
    resolve. It succeeds exactly when every trimmed token resolves.
  */
  function ResolveAll(tokens: seq<string>, resolve: Resolver): (r: Result<set<InetAddress>, string>)
    ensures r.Success? <==> AllResolve(tokens, resolve)
    decreases |tokens|
  {
    if |tokens| == 0 then Success({})
    else
      match resolve(Trim(tokens[0]))
      case Failure(m) => Failure(m)
      case Success(a) =>
        var rest := ResolveAll(tokens[1..], resolve);
        assert forall i :: 1 <= i < |tokens| ==> tokens[i] == tokens[1..][i - 1];
        match rest
        case Failure(m) => Failure(m)
        case Success(s) => Success({a} + s)
  }

  /** Some trimmed token in `tokens` resolves to `a`. */
  predicate ResolvesTo(tokens: seq<string>, resolve: Resolver, a: InetAddress)
  {
    exists i :: 0 <= i < |tokens| && resolve(Trim(tokens[i])) == Success(a)
  }

  /** On success the set holds exactly the addresses of the trimmed tokens. */
  lemma {:induction false} ResolveAllContents(tokens: seq<string>, resolve: Resolver, a: InetAddress)
    requires ResolveAll(tokens, resolve).Success?
    ensures a in ResolveAll(tokens, resolve).value <==> ResolvesTo(tokens, resolve, a)
    decreases |tokens|
  {
    if |tokens| > 0 {
      var rest := tokens[1..];
      var head := resolve(Trim(tokens[0])).value;
      assert ResolveAll(tokens, resolve).value == {head} + ResolveAll(rest, resolve).value;
      ResolveAllContents(rest, resolve, a);
      if ResolvesTo(rest, resolve, a) {
        var i :| 0 <= i < |rest| && resolve(Trim(rest[i])) == Success(a);
        assert rest[i] == tokens[i + 1];
      }
      if ResolvesTo(tokens, resolve, a) {
        var i :| 0 <= i < |tokens| && resolve(Trim(tokens[i])) == Success(a);
        if i > 0 {
          assert tokens[i] == rest[i - 1];
        }
      }
    }
  }

  /**
    On failure the error is that of the first token that does not resolve:
    every token before it resolves.
  */
  lemma {:induction false} ResolveAllFirstFailure(tokens: seq<string>, resolve: Resolver) returns (k: nat)
    requires ResolveAll(tokens, resolve).Failure?
    ensures k < |tokens| && resolve(Trim(tokens[k])) == Failure(ResolveAll(tokens, resolve).error)
    ensures forall j :: 0 <= j < k ==> resolve(Trim(tokens[j])).Success?
    decreases |tokens|
  {
    if resolve(Trim(tokens[0])).Failure? {
      k := 0;
    } else {
      var rest := tokens[1..];
      var k' := ResolveAllFirstFailure(rest, resolve);
      k := k' + 1;
      assert tokens[k] == rest[k'];
      forall j | 1 <= j < k
        ensures resolve(Trim(tokens[j])).Success?
      {
        assert tokens[j] == rest[j - 1];
      }
    }
  }

  /** The host list `value` resolved as the loader does it. */
  function ResolveList(value: string, resolve: Resolver): (r: Result<set<InetAddress>, string>)
    ensures r.Success? <==> AllResolve(Split(value, ','), resolve)
  {
    ResolveAll(Split(value, ','), resolve)
  }

  /**
    Where in the comma-separated list an unresolvable token sits makes no
    difference: the whole list fails.
  */
  lemma UnresolvableTokenAnywhereFails(value: string, resolve: Resolver, i: nat)
    requires i < |Split(value, ',')|
    requires resolve(Trim(Split(value, ',')[i])).Failure?
    ensures ResolveList(value, resolve).Failure?
  {
  }
}
