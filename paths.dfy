/** Dotted configuration paths: `path.split('.')` and its inverse `keys.join('.')`. */
module Paths {
  import opened Text

  predicate DotFree(s: string) {
    forall i | 0 <= i < |s| :: s[i] != '.'
  }

  predicate AllDotFree(keys: seq<string>) {
    forall i | 0 <= i < |keys| :: DotFree(keys[i])
  }

  /** `path.split('.')`: the maximal dot-free pieces between the dots; never empty,
      and the empty path gives the single empty segment. */
  function Split(path: string): (keys: seq<string>)
    ensures |keys| >= 1
  {
    if |path| == 0 then [""]
    else
      var rest := Split(path[1..]);
      if path[0] == '.' then [""] + rest else [[path[0]] + rest[0]] + rest[1..]
  }

  lemma {:induction false} SplitDotFree(path: string)
    ensures AllDotFree(Split(path))
  {
    if |path| > 0 {
      SplitDotFree(path[1..]);
    }
  }

  /** Joining the segments with dots gives back the path. */
  lemma {:induction false} JoinSplit(path: string)
    ensures Join(Split(path), ".") == path
  {
    if |path| > 0 {
      var rest := Split(path[1..]);
      JoinSplit(path[1..]);
      if path[0] == '.' {
        assert Split(path) == [""] + rest;
      } else {
        var keys := Split(path);
        assert keys == [[path[0]] + rest[0]] + rest[1..];
        if |rest| == 1 {
          assert path == [path[0]] + rest[0];
        } else {
          assert keys[1..] == rest[1..];
          assert Join(rest, ".") == rest[0] + "." + Join(rest[1..], ".");
          assert path == [path[0]] + (rest[0] + "." + Join(rest[1..], "."));
        }
      }
    }
  }

  lemma {:induction false} SplitDotFreePrefix(a: string, b: string)
    requires DotFree(a)
    ensures Split(a + "." + b) == [a] + Split(b)
    ensures Split(a) == [a]
  {
    if |a| > 0 {
      SplitDotFreePrefix(a[1..], b);
      assert (a + "." + b)[1..] == a[1..] + "." + b;
      assert [a[0]] + a[1..] == a;
    } else {
      assert (a + "." + b)[1..] == b;
    }
  }

  /** Splitting a join of dot-free segments gives back the segments. */
  lemma {:induction false} SplitJoin(keys: seq<string>)
    requires |keys| >= 1 && AllDotFree(keys)
    ensures Split(Join(keys, ".")) == keys
  {
    SplitDotFreePrefix(keys[0], "");
    if |keys| > 1 {
      SplitJoin(keys[1..]);
      SplitDotFreePrefix(keys[0], Join(keys[1..], "."));
      assert [keys[0]] + keys[1..] == keys;
    }
  }
}
