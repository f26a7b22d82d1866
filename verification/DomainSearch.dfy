/** The keys under which findRoute (router/http.go) looks for the trie of a host. */
module DomainSearch {
  import opened Paths
  import opened Routes

  /** The first n - 1 parts of a name that is split at the dots, and the rest. */
  function SplitDots(name: string, n: nat): seq<string> {
    var dot := IndexOf(name, '.');
    if n <= 1 || dot == -1 then [name] else [name[..dot]] + SplitDots(name[dot + 1..], n - 1)
  }

  function JoinDots(parts: seq<string>): string {
    if parts == [] then "" else if |parts| == 1 then parts[0] else parts[0] + "." + JoinDots(parts[1..])
  }

  function Wild(name: string): string {
    "*." + name
  }

  /** The wildcard keys for a split name, from most specific to least specific. */
  function Wildcards(parts: seq<string>): seq<string> {
    if parts == [] then [] else [Wild(JoinDots(parts))] + Wildcards(parts[1..])
  }

  /** The keys that findRoute tries, in order: the name itself, wildcards up to five
      parts deep, and the catch-all. */
  function Candidates(host: string, port: string): seq<string> {
    var domain := JoinHostPort(host, port);
    [domain] + Wildcards(SplitDots(domain, 5)) + [JoinHostPort("*", port)]
  }

  /** s is the whole name, or what follows one of its first n dots. */
  predicate IsTail(name: string, n: nat, s: string) {
    s == name || (|s| < |name| && FollowsDot(name, n, |name| - |s| - 1) && s == name[|name| - |s|..])
  }

  predicate FollowsDot(name: string, n: nat, i: nat)
    requires i < |name|
  {
    name[i] == '.' && multiset(name[..i])['.'] < n
  }

  /** After the first dot, one dot less precedes each place. */
  lemma {:induction false} DotsInRest(name: string, n: nat, dot: nat, i: nat)
    requires dot < i < |name| && name[dot] == '.' && '.' !in name[..dot]
    ensures FollowsDot(name, n, i) <==> 0 < n && FollowsDot(name[dot + 1..], n - 1, i - dot - 1)
  {
    var rest := name[dot + 1..];
    assert name[..i] == name[..dot] + ['.'] + rest[..i - dot - 1];
    assert multiset(name[..dot])['.'] == 0;
  }

  lemma {:induction false} TailBeyond(name: string, n: nat, s: string, dot: nat)
    requires dot < |name| && name[dot] == '.' && '.' !in name[..dot]
    ensures IsTail(name, n, s) <==> s == name || (0 < n && IsTail(name[dot + 1..], n - 1, s))
  {
    var rest := name[dot + 1..];
    if |s| < |rest| {
      DotsInRest(name, n, dot, |name| - |s| - 1);
      assert rest[|rest| - |s|..] == name[|name| - |s|..];
    } else if |s| == |rest| {
      assert FollowsDot(name, n, dot) <==> 0 < n;
    } else if |s| < |name| {
      assert name[|name| - |s| - 1] in name[..dot];
    }
  }

  /** The tails are the name itself and the tails of what follows its first dot. */
  lemma {:induction false} TailStep(name: string, n: nat, s: string)
    ensures var dot := IndexOf(name, '.');
            IsTail(name, n, s) <==> s == name || (0 < n && dot != -1 && IsTail(name[dot + 1..], n - 1, s))
  {
    if IndexOf(name, '.') != -1 {
      TailBeyond(name, n, s, IndexOf(name, '.'));
    }
  }

  /** Splitting and joining loses nothing. */
  lemma {:induction false} JoinOfSplit(name: string, n: nat)
    ensures SplitDots(name, n) != [] && JoinDots(SplitDots(name, n)) == name
    decreases n
  {
    var dot := IndexOf(name, '.');
    if n > 1 && dot != -1 {
      JoinOfSplit(name[dot + 1..], n - 1);
      assert SplitDots(name, n)[1..] == SplitDots(name[dot + 1..], n - 1);
      assert name == name[..dot] + "." + name[dot + 1..];
    }
  }

  /** The wildcard keys of a name: its own, and those of what follows its first dot. */
  lemma {:induction false} WildcardsStep(name: string, n: nat)
    ensures var dot := IndexOf(name, '.');
            Wildcards(SplitDots(name, n)) ==
            [Wild(name)] + if n <= 1 || dot == -1 then [] else Wildcards(SplitDots(name[dot + 1..], n - 1))
  {
    JoinOfSplit(name, n);
    var dot := IndexOf(name, '.');
    if n > 1 && dot != -1 {
      assert SplitDots(name, n)[1..] == SplitDots(name[dot + 1..], n - 1);
    }
  }

  /** Each key is the wildcard of a tail. */
  ghost predicate OnlyTails(keys: seq<string>, name: string, n: nat) {
    forall key | key in keys :: exists s :: IsTail(name, n, s) && key == Wild(s)
  }

  /** The wildcard of each tail is among the keys. */
  ghost predicate AllTails(keys: seq<string>, name: string, n: nat) {
    forall s | IsTail(name, n, s) :: Wild(s) in keys
  }

  /** Each key is longer than every later one. */
  ghost predicate Shrinks(keys: seq<string>) {
    forall j, k | 0 <= j < k < |keys| :: |keys[k]| < |keys[j]|
  }

  lemma {:induction false} TailOf(keys: seq<string>, name: string, n: nat, k: nat) returns (s: string)
    requires k < |keys| && OnlyTails(keys, name, n)
    ensures IsTail(name, n, s) && keys[k] == Wild(s)
  {
    assert keys[k] in keys;
    s :| IsTail(name, n, s) && keys[k] == Wild(s);
  }

  lemma {:induction false} OnlyTailsStep(name: string, n: nat, more: seq<string>)
    requires 0 < n && IndexOf(name, '.') != -1 && OnlyTails(more, name[IndexOf(name, '.') + 1..], n - 1)
    ensures OnlyTails([Wild(name)] + more, name, n)
  {
    var rest := name[IndexOf(name, '.') + 1..];
    forall key | key in [Wild(name)] + more
      ensures exists s :: IsTail(name, n, s) && key == Wild(s)
    {
      if key in more {
        var s :| IsTail(rest, n - 1, s) && key == Wild(s);
        TailStep(name, n, s);
      } else {
        assert IsTail(name, n, name);
      }
    }
  }

  lemma {:induction false} AllTailsStep(name: string, n: nat, more: seq<string>)
    requires 0 < n && IndexOf(name, '.') != -1 ==> AllTails(more, name[IndexOf(name, '.') + 1..], n - 1)
    ensures AllTails([Wild(name)] + more, name, n)
  {
    forall s | IsTail(name, n, s)
      ensures Wild(s) in [Wild(name)] + more
    {
      TailStep(name, n, s);
    }
  }

  lemma {:induction false} ShrinksStep(name: string, rest: string, more: seq<string>)
    requires |rest| < |name| && Shrinks(more) && more != [] && more[0] == Wild(rest)
    ensures Shrinks([Wild(name)] + more)
  {
    var keys := [Wild(name)] + more;
    forall k | 0 < k < |keys|
      ensures |keys[k]| < |keys[0]|
    {
      assert keys[k] == more[k - 1];
    }
    forall j, k | 0 < j < k < |keys|
      ensures |keys[k]| < |keys[j]|
    {
      assert keys[k] == more[k - 1] && keys[j] == more[j - 1];
    }
  }

  lemma {:induction false} WildcardsOnly(name: string, n: nat)
    ensures OnlyTails(Wildcards(SplitDots(name, n + 1)), name, n)
    decreases n
  {
    WildcardsStep(name, n + 1);
    if n == 0 || IndexOf(name, '.') == -1 {
      assert IsTail(name, n, name);
    } else {
      var rest := name[IndexOf(name, '.') + 1..];
      WildcardsOnly(rest, n - 1);
      OnlyTailsStep(name, n, Wildcards(SplitDots(rest, n)));
    }
  }

  lemma {:induction false} WildcardsAll(name: string, n: nat)
    ensures AllTails(Wildcards(SplitDots(name, n + 1)), name, n)
    decreases n
  {
    WildcardsStep(name, n + 1);
    if n == 0 || IndexOf(name, '.') == -1 {
      AllTailsStep(name, n, []);
    } else {
      var rest := name[IndexOf(name, '.') + 1..];
      WildcardsAll(rest, n - 1);
      AllTailsStep(name, n, Wildcards(SplitDots(rest, n)));
    }
  }

  lemma {:induction false} WildcardsShrink(name: string, n: nat)
    ensures var keys := Wildcards(SplitDots(name, n + 1)); Shrinks(keys) && keys != [] && keys[0] == Wild(name)
    decreases n
  {
    WildcardsStep(name, n + 1);
    if n > 0 && IndexOf(name, '.') != -1 {
      var rest := name[IndexOf(name, '.') + 1..];
      WildcardsShrink(rest, n - 1);
      ShrinksStep(name, rest, Wildcards(SplitDots(rest, n)));
    }
  }

  /** The keys are exactly the wildcards of the tails, the longest first. */
  ghost predicate AreTails(keys: seq<string>, name: string, n: nat) {
    OnlyTails(keys, name, n) && AllTails(keys, name, n) && Shrinks(keys)
  }

  /** findRoute tries the domain first and the catch-all last; between them come exactly the
      wildcards of the domain and of what follows each of its first four dots, the longest first. */
  lemma {:induction false} CandidatesAre(host: string, port: string)
    ensures var keys := Candidates(host, port);
            && 3 <= |keys|
            && keys[0] == JoinHostPort(host, port) && keys[|keys| - 1] == JoinHostPort("*", port)
            && keys[1] == "*." + JoinHostPort(host, port)
            && AreTails(keys[1..|keys| - 1], JoinHostPort(host, port), 4)
  {
    var n: nat :| n == 4;
    var domain, keys := JoinHostPort(host, port), Candidates(host, port);
    var wild := Wildcards(SplitDots(domain, n + 1));
    assert keys == [domain] + wild + [JoinHostPort("*", port)];
    WildcardsOnly(domain, n);
    WildcardsAll(domain, n);
    WildcardsShrink(domain, n);
    assert keys[1..|keys| - 1] == wild;
  }
}
