/** The three string operations the assistant's decisions are built from, with the meaning
    Python gives them: `pat in s`, `s.replace(pat, "")` and `s.strip()`. */
module Text {

  import opened Options

  // ---------------------------------------------------------------------------
  // Substring test: Python's `pat in s`
  // ---------------------------------------------------------------------------

  /** `pat` occurs in `s` starting at index `i`. */
  ghost predicate OccursAt(s: string, pat: string, i: int)
  {
    0 <= i && i + |pat| <= |s| && s[i..i + |pat|] == pat
  }

  /** Python's `pat in s`: some contiguous block of `s` equals `pat` (always true for `pat == ""`). */
  predicate Contains(s: string, pat: string)
    decreases |s|
  {
    pat <= s || (|s| > 0 && Contains(s[1..], pat))
  }

  /** The scanning definition agrees with the positional one, in both directions. */
  lemma {:induction false} ContainsIff(s: string, pat: string)
    ensures Contains(s, pat) <==> exists i :: OccursAt(s, pat, i)
    decreases |s|
  {
    if pat <= s {
      assert OccursAt(s, pat, 0);
    } else if |s| == 0 {
      assert forall i :: !OccursAt(s, pat, i);
    } else {
      ContainsIff(s[1..], pat);
      if exists i :: OccursAt(s[1..], pat, i) {
        var i :| OccursAt(s[1..], pat, i);
        assert s[i + 1..i + 1 + |pat|] == s[1..][i..i + |pat|];
        assert OccursAt(s, pat, i + 1);
      }
      if exists i :: OccursAt(s, pat, i) {
        var i :| OccursAt(s, pat, i);
        assert s[1..][i - 1..i - 1 + |pat|] == s[i..i + |pat|];
        assert OccursAt(s[1..], pat, i - 1);
      }
    }
  }

  /** The index of the first occurrence of `pat` in `s`, if any (Python's `s.find(pat)`). */
  function IndexOf(s: string, pat: string): (r: Option<nat>)
    ensures r.Some? ==> OccursAt(s, pat, r.value)
    ensures r.Some? ==> forall j :: 0 <= j < r.value ==> !OccursAt(s, pat, j)
    ensures r.None? ==> forall j :: !OccursAt(s, pat, j)
    decreases |s|
  {
    if pat <= s then
      assert s[0..|pat|] == pat;
      Some(0)
    else if |s| == 0 then
      None
    else
      match IndexOf(s[1..], pat)
      case None =>
        assert forall j :: OccursAt(s, pat, j) ==> j > 0 && OccursAt(s[1..], pat, j - 1) by {
          forall j | OccursAt(s, pat, j) ensures j > 0 && OccursAt(s[1..], pat, j - 1) {
            assert s[1..][j - 1..j - 1 + |pat|] == s[j..j + |pat|];
          }
        }
        None
      case Some(k) =>
        assert s[k + 1..k + 1 + |pat|] == s[1..][k..k + |pat|];
        assert forall j :: 0 < j < k + 1 ==> !OccursAt(s, pat, j) by {
          forall j | 0 < j < k + 1 && OccursAt(s, pat, j) ensures false {
            assert s[1..][j - 1..j - 1 + |pat|] == s[j..j + |pat|];
            assert OccursAt(s[1..], pat, j - 1);
          }
        }
        assert !OccursAt(s, pat, 0);
        Some(k + 1)
  }

  /** The first occurrence is the one IndexOf reports: an occurrence at `k` with none before it. */
  lemma IndexOfFirst(s: string, pat: string, k: nat)
    requires OccursAt(s, pat, k)
    requires forall j :: 0 <= j < k ==> !OccursAt(s, pat, j)
    ensures IndexOf(s, pat) == Some(k)
  {
    var r := IndexOf(s, pat);
    assert r.Some?;
    assert !(r.value < k);
    assert !(k < r.value);
  }

  // ---------------------------------------------------------------------------
  // Deletion: Python's `s.replace(pat, "")`
  // ---------------------------------------------------------------------------

  /** `s.replace(pat, "")`: scanning left to right, each occurrence of `pat` that does not
      overlap an earlier one is dropped; every other character is kept, in order. */
  function RemoveAll(s: string, pat: string): (r: string)
    requires pat != ""
    ensures |r| <= |s|
    decreases |s|
  {
    if |s| == 0 then ""
    else if pat <= s then RemoveAll(s[|pat|..], pat)
    else [s[0]] + RemoveAll(s[1..], pat)
  }

  /** Deleting an occurrence that is there always shortens the string. */
  lemma {:induction false} RemoveAllShrinks(s: string, pat: string)
    requires pat != ""
    requires Contains(s, pat)
    ensures |RemoveAll(s, pat)| < |s|
    decreases |s|
  {
    if pat <= s {
    } else {
      RemoveAllShrinks(s[1..], pat);
    }
  }

  /** A string without `pat` is untouched, and a string with `pat` is changed: both directions. */
  lemma {:induction false} RemoveAllUnchangedIff(s: string, pat: string)
    requires pat != ""
    ensures RemoveAll(s, pat) == s <==> !Contains(s, pat)
    decreases |s|
  {
    if Contains(s, pat) {
      RemoveAllShrinks(s, pat);
    } else if |s| > 0 {
      RemoveAllUnchangedIff(s[1..], pat);
      assert [s[0]] + s[1..] == s;
    }
  }

  /** `s.replace(pat, "")` as repeated `find`: with no occurrence the string is kept whole;
      otherwise the text before the first occurrence is kept, that occurrence is dropped, and
      the deletion goes on after it. */
  lemma RemoveAllIsRepeatedFind(s: string, pat: string)
    requires pat != ""
    ensures RemoveAll(s, pat) ==
      match IndexOf(s, pat)
      case None => s
      case Some(i) => s[..i] + RemoveAll(s[i + |pat|..], pat)
  {
    if IndexOf(s, pat).Some? {
      RemoveAllAtFirst(s, pat, IndexOf(s, pat).value);
    } else {
      RemoveAllWithout(s, pat);
    }
  }

  /** Deletion keeps everything before the first occurrence and drops that occurrence. */
  lemma {:induction false} RemoveAllAtFirst(s: string, pat: string, i: nat)
    requires pat != "" && IndexOf(s, pat) == Some(i)
    ensures RemoveAll(s, pat) == s[..i] + RemoveAll(s[i + |pat|..], pat)
    decreases |s|
  {
    if pat <= s {
      EmptyPrefix(s, RemoveAll(s[|pat|..], pat));
    } else {
      var k := i - 1;
      RemoveAllAtFirst(s[1..], pat, k);
      RemoveAllKeepsFirst(s, pat);
      var rest := RemoveAll(s[1..][k + |pat|..], pat);
      KeepUpTo(s, k, RemoveAll(s, pat), RemoveAll(s[1..], pat), rest);
      DropShift(s, k + |pat|);
    }
  }

  /** A string in which `find` finds nothing is kept whole. */
  lemma {:induction false} RemoveAllWithout(s: string, pat: string)
    requires pat != "" && IndexOf(s, pat).None?
    ensures RemoveAll(s, pat) == s
    decreases |s|
  {
    if |s| > 0 {
      assert IndexOf(s[1..], pat).None?;
      RemoveAllWithout(s[1..], pat);
      ConsTail(s);
    }
  }

  /** Without an occurrence at the front, the first character is kept. */
  lemma RemoveAllKeepsFirst(s: string, pat: string)
    requires pat != "" && |s| > 0 && !(pat <= s)
    ensures RemoveAll(s, pat) == [s[0]] + RemoveAll(s[1..], pat)
  {
  }

  // The sequence facts below are stated over plain strings, apart from `RemoveAll`, so that the
  // inductive proofs above never compare sequences holding `RemoveAll` terms element by element,
  // which keeps those proofs cheap.

  /** Keeping the first character and then `k` characters of the tail before `rest` keeps
      `k + 1` characters of the whole before `rest`. */
  lemma KeepUpTo(s: string, k: nat, whole: string, tail: string, rest: string)
    requires k < |s|
    requires whole == [s[0]] + tail && tail == s[1..][..k] + rest
    ensures whole == s[..k + 1] + rest
  {
    KeepFirst(s, k, rest);
  }

  /** The first character followed by the tail is the whole string. */
  lemma ConsTail(s: string)
    requires |s| > 0
    ensures [s[0]] + s[1..] == s
  {
  }

  /** Nothing kept in front of a deletion leaves just the deletion. */
  lemma EmptyPrefix(s: string, rest: string)
    ensures s[..0] + rest == rest
  {
  }

  /** Dropping from the tail is dropping one more from the whole. */
  lemma DropShift(s: string, n: nat)
    requires n < |s|
    ensures s[1..][n..] == s[n + 1..]
  {
  }

  /** Putting the first character back in front of a prefix of the tail gives a prefix of the whole. */
  lemma KeepFirst(s: string, k: nat, rest: string)
    requires k < |s|
    ensures [s[0]] + (s[1..][..k] + rest) == s[..k + 1] + rest
  {
    assert [s[0]] + s[1..][..k] == s[..k + 1];
  }

  /** Nothing of "search" is removed from its tail "arch". */
  lemma TailSurvives()
    ensures RemoveAll("arch", "search") == "arch"
  {
    assert RemoveAll("h", "search") == "h";
    assert RemoveAll("ch", "search") == "ch";
    assert RemoveAll("rch", "search") == "rch";
  }

  /** One pass is not a fixpoint: removing "search" from "sesearcharch" leaves "search". */
  lemma RemovalCanExposeWord()
    ensures RemoveAll("sesearcharch", "search") == "search"
    ensures Contains(RemoveAll("sesearcharch", "search"), "search")
  {
    var p := "search";
    TailSurvives();
    assert "searcharch"[6..] == "arch";
    assert RemoveAll("searcharch", p) == "arch";
    assert RemoveAll("esearcharch", p) == "earch";
    assert p <= p;
  }

  // ---------------------------------------------------------------------------
  // Trimming: Python's `s.strip()`
  // ---------------------------------------------------------------------------

  /** Python's `str.isspace` for one character: the ASCII controls tab to carriage return,
      the file/group/record/unit separators, space, NEL, no-break space and the Unicode
      space separators, line and paragraph separators. */
  predicate IsSpace(c: char)
  {
    var n := c as int;
    (9 <= n <= 13) || (28 <= n <= 32) || n == 0x85 || n == 0xA0 || n == 0x1680 ||
    (0x2000 <= n <= 0x200A) || n == 0x2028 || n == 0x2029 || n == 0x202F ||
    n == 0x205F || n == 0x3000
  }

  /** Every character of `s` is whitespace (vacuously true of ""). */
  predicate AllSpace(s: string)
  {
    forall k :: 0 <= k < |s| ==> IsSpace(s[k])
  }

  /** `s.lstrip()`. */
  function StripLeft(s: string): string
    decreases |s|
  {
    if |s| > 0 && IsSpace(s[0]) then StripLeft(s[1..]) else s
  }

  /** `s.lstrip()` is the longest suffix of `s` that does not start with whitespace. */
  lemma {:induction false} StripLeftSpec(s: string)
    ensures var r := StripLeft(s);
      |r| <= |s| && r == s[|s| - |r|..] && AllSpace(s[..|s| - |r|]) && (r == [] || !IsSpace(r[0]))
    decreases |s|
  {
    if |s| > 0 && IsSpace(s[0]) {
      StripLeftSpec(s[1..]);
      var r := StripLeft(s[1..]);
      assert s[1..][|s| - 1 - |r|..] == s[|s| - |r|..];
      var cut, rest := s[..|s| - |r|], s[1..][..|s| - 1 - |r|];
      forall k | 0 <= k < |cut| ensures IsSpace(cut[k]) {
        if k > 0 { assert cut[k] == rest[k - 1]; }
      }
    }
  }

  /** `s.rstrip()`. */
  function StripRight(s: string): string
    decreases |s|
  {
    if |s| > 0 && IsSpace(s[|s| - 1]) then StripRight(s[..|s| - 1]) else s
  }

  /** `s.rstrip()` is the longest prefix of `s` that does not end with whitespace. */
  lemma {:induction false} StripRightSpec(s: string)
    ensures var r := StripRight(s);
      |r| <= |s| && r == s[..|r|] && AllSpace(s[|r|..]) && (r == [] || !IsSpace(r[|r| - 1]))
    decreases |s|
  {
    if |s| > 0 && IsSpace(s[|s| - 1]) {
      var t := s[..|s| - 1];
      StripRightSpec(t);
      var r := StripRight(t);
      assert t[..|r|] == s[..|r|];
      forall k | 0 <= k < |s| - |r| ensures IsSpace(s[|r|..][k]) {
        if k < |t| - |r| { assert s[|r|..][k] == t[|r|..][k]; }
      }
    }
  }

  /** `r` is `s` with a whitespace-only block cut from each end, starting at index `i`. */
  ghost predicate TrimmedAt(s: string, r: string, i: int)
  {
    0 <= i && i + |r| <= |s| && r == s[i..i + |r|] &&
    AllSpace(s[..i]) && AllSpace(s[i + |r|..])
  }

  /** `s.strip()`. */
  function Strip(s: string): string
  {
    StripRight(StripLeft(s))
  }

  /** `s.strip()` is the block of `s` left after removing leading and trailing whitespace. It is
      empty exactly when `s` is all whitespace, and otherwise starts and ends with a
      non-whitespace character. */
  lemma StripSpec(s: string)
    ensures exists i :: TrimmedAt(s, Strip(s), i)
    ensures var r := Strip(s); r == [] || (!IsSpace(r[0]) && !IsSpace(r[|r| - 1]))
    ensures Strip(s) == [] <==> AllSpace(s)
  {
    var l := StripLeft(s);
    StripLeftSpec(s);
    var r := StripRight(l);
    StripRightSpec(l);
    var i := |s| - |l|;
    assert s[i..i + |r|] == r;
    assert s[i + |r|..] == l[|r|..];
    assert TrimmedAt(s, r, i);
    assert r == [] ==> AllSpace(s) by {
      if r == [] {
        forall k | 0 <= k < |s| ensures IsSpace(s[k]) {
          assert s[..i][k] == s[k];
        }
      }
    }
    assert l != [] ==> l[0] == s[i];
    assert r != [] ==> !IsSpace(r[0]) by {
      if r != [] { assert r[0] == l[0]; }
    }
    assert exists i :: TrimmedAt(s, Strip(s), i);
    assert Strip(s) == [] ==> AllSpace(s);
    assert AllSpace(s) ==> Strip(s) == [];
    assert r == [] || (!IsSpace(r[0]) && !IsSpace(r[|r| - 1]));
  }

}
