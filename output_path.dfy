/** Where a template's output goes (app/src/commands.rs, `generate`):
    `format!("{}/{}", output_dir, output)`, with every `{table}` in `output`
    replaced by the table name for per-table templates. */
module OutputPath {
  import opened Wrappers

  const TablePlaceholder: string := "{table}"

  /** `pattern` occurs in `s` starting at index `i`. */
  predicate OccursAt(s: string, pattern: string, i: int)
  {
    0 <= i <= |s| - |pattern| && s[i..i + |pattern|] == pattern
  }

  /** `pattern` occurs somewhere in `s`. */
  predicate Contains(s: string, pattern: string)
  {
    exists i :: 0 <= i <= |s| - |pattern| && OccursAt(s, pattern, i)
  }

  /** `s.replace(pattern, with)`: scanning from the left, every occurrence of
      `pattern` that does not overlap an earlier replaced one is replaced. */
  function Replace(s: string, pattern: string, with: string): string
    requires pattern != []
    decreases |s|
  {
    if |s| < |pattern| then s
    else if s[..|pattern|] == pattern then with + Replace(s[|pattern|..], pattern, with)
    else [s[0]] + Replace(s[1..], pattern, with)
  }

  /** A string that does not start with `pattern` contains it exactly when its tail does. */
  lemma ContainsAfterMiss(s: string, pattern: string)
    requires pattern != [] && |s| >= |pattern| && s[..|pattern|] != pattern
    ensures Contains(s, pattern) <==> Contains(s[1..], pattern)
  {
    if Contains(s, pattern) {
      var i :| 0 <= i <= |s| - |pattern| && OccursAt(s, pattern, i);
      assert i != 0;
      assert s[1..][i - 1..i - 1 + |pattern|] == s[i..i + |pattern|];
      assert OccursAt(s[1..], pattern, i - 1);
    }
    if Contains(s[1..], pattern) {
      var i :| 0 <= i <= |s[1..]| - |pattern| && OccursAt(s[1..], pattern, i);
      assert s[i + 1..i + 1 + |pattern|] == s[1..][i..i + |pattern|];
      assert OccursAt(s, pattern, i + 1);
    }
  }

  /** A longer replacement never gives a shorter result, and gives a strictly
      longer one as soon as there is something to replace. */
  lemma {:induction false} ReplaceLengthMonotone(s: string, pattern: string, a: string, b: string)
    requires pattern != [] && |a| < |b|
    ensures |Replace(s, pattern, a)| <= |Replace(s, pattern, b)|
    ensures Contains(s, pattern) ==> |Replace(s, pattern, a)| < |Replace(s, pattern, b)|
    decreases |s|
  {
    if |s| < |pattern| {
    } else if s[..|pattern|] == pattern {
      ReplaceLengthMonotone(s[|pattern|..], pattern, a, b);
    } else {
      ContainsAfterMiss(s, pattern);
      ReplaceLengthMonotone(s[1..], pattern, a, b);
    }
  }

  /** Without an occurrence of the pattern there is nothing to replace. */
  lemma {:induction false} ReplaceAbsent(s: string, pattern: string, with: string)
    requires pattern != [] && !Contains(s, pattern)
    ensures Replace(s, pattern, with) == s
    decreases |s|
  {
    if |s| >= |pattern| {
      assert !OccursAt(s, pattern, 0);
      assert s[..|pattern|] == s[0..0 + |pattern|];
      ContainsAfterMiss(s, pattern);
      ReplaceAbsent(s[1..], pattern, with);
    }
  }

  /** Past the first position, occurrences in `s` are those in its tail, shifted by one. */
  lemma OccursAtTail(s: string, pattern: string)
    requires |s| >= 1
    ensures forall j :: 1 <= j <= |s| ==> (OccursAt(s, pattern, j) <==> OccursAt(s[1..], pattern, j - 1))
    ensures forall j :: 0 <= j < |s| ==> (OccursAt(s[1..], pattern, j) <==> OccursAt(s, pattern, j + 1))
  {
    forall j | 1 <= j <= |s|
      ensures OccursAt(s, pattern, j) <==> OccursAt(s[1..], pattern, j - 1)
    {
      if 0 <= j <= |s| - |pattern| {
        var here, there := s[j..j + |pattern|], s[1..][j - 1..j - 1 + |pattern|];
        forall k | 0 <= k < |pattern|
          ensures here[k] == there[k]
        {
        }
        assert here == there;
      }
    }
  }

  /** The leftmost occurrence of `pattern` in `s`, if there is one. */
  function FirstOccurrence(s: string, pattern: string): (r: Option<nat>)
    requires pattern != []
    ensures r.None? <==> !Contains(s, pattern)
    ensures r.Some? ==> OccursAt(s, pattern, r.value)
    ensures r.Some? ==> forall j :: 0 <= j < r.value ==> !OccursAt(s, pattern, j)
    decreases |s|
  {
    if |s| < |pattern| then None
    else if s[..|pattern|] == pattern then
      assert OccursAt(s, pattern, 0);
      Some(0)
    else
      ContainsAfterMiss(s, pattern);
      match FirstOccurrence(s[1..], pattern)
      case None => None
      case Some(i) =>
        OccursAtTail(s, pattern);
        assert !OccursAt(s, pattern, 0) by { assert s[0..|pattern|] == s[..|pattern|]; }
        Some(i + 1)
  }

  /** The pieces of `s` between the occurrences of `pattern`, found from the
      left without overlap. */
  function Split(s: string, pattern: string): (pieces: seq<string>)
    requires pattern != []
    ensures |pieces| >= 1
    decreases |s|
  {
    match FirstOccurrence(s, pattern)
    case None => [s]
    case Some(i) => [s[..i]] + Split(s[i + |pattern|..], pattern)
  }

  /** The pieces with `separator` between each two neighbours. */
  function JoinWith(pieces: seq<string>, separator: string): string
    requires |pieces| >= 1
  {
    if |pieces| == 1 then pieces[0] else pieces[0] + separator + JoinWith(pieces[1..], separator)
  }

  /** Joining the pieces with the pattern again gives back the string. */
  lemma {:induction false} SplitJoinRoundTrip(s: string, pattern: string)
    requires pattern != []
    ensures JoinWith(Split(s, pattern), pattern) == s
    decreases |s|
  {
    var first := FirstOccurrence(s, pattern);
    if first.Some? {
      var i := first.value;
      var rest := s[i + |pattern|..];
      SplitJoinRoundTrip(rest, pattern);
      SplitStep(s, pattern, i, JoinWith(Split(rest, pattern), pattern));
    }
  }

  /** One step of the round trip, with the joined rest abstracted as `joined`. */
  lemma SplitStep(s: string, pattern: string, i: nat, joined: string)
    requires pattern != [] && FirstOccurrence(s, pattern) == Some(i)
    requires joined == JoinWith(Split(s[i + |pattern|..], pattern), pattern)
    requires joined == s[i + |pattern|..]
    ensures JoinWith(Split(s, pattern), pattern) == s
  {
    var rest := s[i + |pattern|..];
    assert s[i..i + |pattern|] == pattern;
    assert Split(s, pattern) == [s[..i]] + Split(rest, pattern);
    JoinWithCons(s[..i], Split(rest, pattern), pattern);
    Rejoin(s, i, |pattern|);
  }

  lemma Rejoin(s: string, i: nat, n: nat)
    requires i + n <= |s|
    ensures s == s[..i] + s[i..i + n] + s[i + n..]
  {
  }

  lemma JoinWithCons(head: string, tail: seq<string>, separator: string)
    requires |tail| >= 1
    ensures JoinWith([head] + tail, separator) == head + separator + JoinWith(tail, separator)
  {
    assert ([head] + tail)[1..] == tail;
  }

  /** No piece holds the pattern. */
  lemma {:induction false} SplitPiecesFree(s: string, pattern: string)
    requires pattern != []
    ensures forall k :: 0 <= k < |Split(s, pattern)| ==> !Contains(Split(s, pattern)[k], pattern)
    decreases |s|
  {
    var first := FirstOccurrence(s, pattern);
    if first.Some? {
      var i := first.value;
      var rest := s[i + |pattern|..];
      SplitPiecesFree(rest, pattern);
      assert Split(s, pattern)[1..] == Split(rest, pattern);
      forall j | 0 <= j <= i - |pattern|
        ensures !OccursAt(s[..i], pattern, j)
      {
        assert !OccursAt(s, pattern, j);
        assert s[..i][j..j + |pattern|] == s[j..j + |pattern|];
      }
    }
  }

  /** Replacing starts only at an occurrence: before the first `k` positions,
      none of which starts one, the string is copied. */
  lemma {:induction false} ReplaceCopiesPrefix(s: string, pattern: string, with: string, k: nat)
    requires pattern != [] && k <= |s|
    requires forall j :: 0 <= j < k ==> !OccursAt(s, pattern, j)
    ensures Replace(s, pattern, with) == s[..k] + Replace(s[k..], pattern, with)
    decreases k
  {
    if k > 0 && |s| >= |pattern| {
      ReplaceMiss(s, pattern, with);
      OccursAtTail(s, pattern);
      ReplaceCopiesPrefix(s[1..], pattern, with, k - 1);
      PrefixShift(s, k);
    } else if k > 0 {
      assert |s[k..]| < |pattern|;
      assert s == s[..k] + s[k..];
    }
  }

  /** A string long enough for the pattern but not starting with it keeps its first character. */
  lemma ReplaceMiss(s: string, pattern: string, with: string)
    requires pattern != [] && |s| >= |pattern| && !OccursAt(s, pattern, 0)
    ensures Replace(s, pattern, with) == [s[0]] + Replace(s[1..], pattern, with)
  {
    assert s[..|pattern|] == s[0..0 + |pattern|];
  }

  lemma PrefixShift(s: string, k: nat)
    requires 0 < k <= |s|
    ensures s[..k] == [s[0]] + s[1..][..k - 1] && s[k..] == s[1..][k - 1..]
  {
  }

  /** `Replace` is splitting at the occurrences and joining with the replacement. */
  lemma {:induction false} ReplaceIsSplitJoin(s: string, pattern: string, with: string)
    requires pattern != []
    ensures Replace(s, pattern, with) == JoinWith(Split(s, pattern), with)
    decreases |s|
  {
    var first := FirstOccurrence(s, pattern);
    if first.None? {
      ReplaceAbsent(s, pattern, with);
    } else {
      var i := first.value;
      var rest := s[i + |pattern|..];
      ReplaceIsSplitJoin(rest, pattern, with);
      ReplaceStep(s, pattern, with, i, JoinWith(Split(rest, pattern), with));
    }
  }

  /** One step of `ReplaceIsSplitJoin`, with the replaced rest abstracted as `replaced`. */
  lemma ReplaceStep(s: string, pattern: string, with: string, i: nat, replaced: string)
    requires pattern != [] && FirstOccurrence(s, pattern) == Some(i)
    requires replaced == JoinWith(Split(s[i + |pattern|..], pattern), with)
    requires replaced == Replace(s[i + |pattern|..], pattern, with)
    ensures Replace(s, pattern, with) == JoinWith(Split(s, pattern), with)
  {
    var rest := s[i + |pattern|..];
    ReplaceCopiesPrefix(s, pattern, with, i);
    assert s[i..][..|pattern|] == s[i..i + |pattern|];
    assert s[i..][|pattern|..] == rest;
    assert Split(s, pattern) == [s[..i]] + Split(rest, pattern);
    JoinWithCons(s[..i], Split(rest, pattern), with);
  }

  /** When the pattern occurs, different replacements give different results. */
  lemma ReplaceInjective(s: string, pattern: string, a: string, b: string)
    requires pattern != [] && Contains(s, pattern)
    requires Replace(s, pattern, a) == Replace(s, pattern, b)
    ensures a == b
  {
    if |a| < |b| {
      ReplaceLengthMonotone(s, pattern, a, b);
    } else if |b| < |a| {
      ReplaceLengthMonotone(s, pattern, b, a);
    } else {
      ReplaceInjectiveSameLength(s, pattern, a, b);
    }
  }

  lemma {:induction false} ReplaceInjectiveSameLength(s: string, pattern: string, a: string, b: string)
    requires pattern != [] && Contains(s, pattern) && |a| == |b|
    requires Replace(s, pattern, a) == Replace(s, pattern, b)
    ensures a == b
    decreases |s|
  {
    var ra, rb := Replace(s, pattern, a), Replace(s, pattern, b);
    if s[..|pattern|] == pattern {
      assert ra[..|a|] == a && rb[..|b|] == b;
    } else {
      ContainsAfterMiss(s, pattern);
      assert ra[1..] == Replace(s[1..], pattern, a);
      assert rb[1..] == Replace(s[1..], pattern, b);
      ReplaceInjectiveSameLength(s[1..], pattern, a, b);
    }
  }

  /** A string without an opening brace holds no placeholder. */
  lemma NoBraceNoPlaceholder(s: string)
    requires '{' !in s
    ensures !Contains(s, TablePlaceholder)
  {
    forall i | 0 <= i <= |s| - |TablePlaceholder|
      ensures !OccursAt(s, TablePlaceholder, i)
    {
      assert s[i] in s;
    }
  }

  /** `output_dir + "/" + output`. */
  function Join(dir: string, file: string): string
  {
    dir + "/" + file
  }

  /** The path a per-table template writes for the table named `table`. */
  function TablePath(dir: string, output: string, table: string): string
  {
    Join(dir, Replace(output, TablePlaceholder, table))
  }

  /** With a `{table}` placeholder in the output name, two tables with
      different names never write the same file. */
  lemma TablePathsDistinct(dir: string, output: string, t1: string, t2: string)
    requires Contains(output, TablePlaceholder) && t1 != t2
    ensures TablePath(dir, output, t1) != TablePath(dir, output, t2)
  {
    if TablePath(dir, output, t1) == TablePath(dir, output, t2) {
      var p1, p2 := TablePath(dir, output, t1), TablePath(dir, output, t2);
      assert p1[|dir| + 1..] == Replace(output, TablePlaceholder, t1);
      assert p2[|dir| + 1..] == Replace(output, TablePlaceholder, t2);
      ReplaceInjective(output, TablePlaceholder, t1, t2);
    }
  }

  /** Without a placeholder every table writes the same file, the output name verbatim. */
  lemma TablePathWithoutPlaceholder(dir: string, output: string, table: string)
    requires !Contains(output, TablePlaceholder)
    ensures TablePath(dir, output, table) == Join(dir, output)
  {
    ReplaceAbsent(output, TablePlaceholder, table);
  }

  /** "{table}_model.gen" for the table "users" is "users_model.gen". */
  lemma TablePathExample(dir: string)
    ensures TablePath(dir, "{table}_model.gen", "users") == Join(dir, "users_model.gen")
    ensures TablePath(dir, "{table}_model.gen", "orders") == Join(dir, "orders_model.gen")
  {
    ModelFileName("users");
    ModelFileName("orders");
  }

  lemma ModelFileName(table: string)
    ensures Replace("{table}_model.gen", TablePlaceholder, table) == table + "_model.gen"
  {
    var s := "{table}_model.gen";
    assert s[..7] == TablePlaceholder;
    assert s[7..] == "_model.gen";
    NoBraceNoPlaceholder("_model.gen");
    ReplaceAbsent("_model.gen", TablePlaceholder, table);
  }
}
