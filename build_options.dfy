/** The cache key of a compiled program.

    BuildKernel receives its build options as a std::set<std::string>, which
    iterates in ascending order under std::string's lexicographic comparison.
    Each option is appended after a space, and the key is the program name
    followed by that string. Characters are compared by code point, which
    agrees with std::char_traits<char> comparing bytes as unsigned char. */
module BuildOptions {

  /** std::string's operator<: lexicographic, a proper prefix comes first. */
  predicate Less(a: string, b: string)
    decreases |a|
  {
    if |a| == 0 then |b| > 0
    else if |b| == 0 then false
    else if a[0] != b[0] then a[0] < b[0]
    else Less(a[1..], b[1..])
  }

  lemma {:induction false} LessIrreflexive(a: string)
    ensures !Less(a, a)
    decreases |a|
  {
    if |a| > 0 {
      LessIrreflexive(a[1..]);
    }
  }

  lemma {:induction false} LessTransitive(a: string, b: string, c: string)
    requires Less(a, b) && Less(b, c)
    ensures Less(a, c)
    decreases |a|
  {
    if |a| > 0 && a[0] == b[0] && b[0] == c[0] {
      LessTransitive(a[1..], b[1..], c[1..]);
    }
  }

  lemma {:induction false} LessTotal(a: string, b: string)
    ensures a == b || Less(a, b) || Less(b, a)
    decreases |a|
  {
    if |a| > 0 && |b| > 0 && a[0] == b[0] {
      LessTotal(a[1..], b[1..]);
      if a[1..] == b[1..] {
        assert a == [a[0]] + a[1..] && b == [b[0]] + b[1..];
      }
    }
  }

  lemma {:induction false} LessAsymmetric(a: string, b: string)
    requires Less(a, b)
    ensures !Less(b, a)
  {
    if Less(b, a) {
      LessTransitive(a, b, a);
      LessIrreflexive(a);
    }
  }

  /** m is the first element of s in iteration order. */
  predicate IsLeast(m: string, s: set<string>)
  {
    m in s && forall x :: x in s ==> m == x || Less(m, x)
  }

  lemma {:induction false} LeastExists(s: set<string>)
    requires s != {}
    ensures exists m :: IsLeast(m, s)
    decreases |s|
  {
    var x :| x in s;
    if s == {x} {
      assert IsLeast(x, s);
    } else {
      var rest := s - {x};
      LeastExists(rest);
      var m :| IsLeast(m, rest);
      LessTotal(x, m);
      if Less(x, m) {
        forall y | y in s
          ensures x == y || Less(x, y)
        {
          if y != x && y != m {
            LessTransitive(x, m, y);
          }
        }
        assert IsLeast(x, s);
      } else {
        assert IsLeast(m, s);
      }
    }
  }

  lemma LeastUnique(m1: string, m2: string, s: set<string>)
    requires IsLeast(m1, s) && IsLeast(m2, s)
    ensures m1 == m2
  {
    if m1 != m2 {
      LessAsymmetric(m1, m2);
    }
  }

  /** The least element of a non-empty set of options. */
  ghost function Least(s: set<string>): (m: string)
    requires s != {}
    ensures IsLeast(m, s)
  {
    LeastExists(s);
    var m :| IsLeast(m, s);
    m
  }

  /** The elements of s in strictly ascending order. */
  ghost function SortedOptions(s: set<string>): (r: seq<string>)
    ensures |r| == |s|
    ensures forall x :: x in r <==> x in s
    ensures forall i, j :: 0 <= i < j < |r| ==> Less(r[i], r[j])
    decreases |s|
  {
    if s == {} then []
    else
      var m := Least(s);
      var rest := SortedOptions(s - {m});
      assert forall x :: x in rest ==> Less(m, x);
      [m] + rest
  }

  /** Each option preceded by one space, in the order given. */
  function OptionsSuffix(opts: seq<string>): (suffix: string)
  {
    if opts == [] then "" else " " + opts[0] + OptionsSuffix(opts[1..])
  }

  /** The build_options_str BuildKernel computes for a set of options. */
  ghost function CanonicalOptions(options: set<string>): (str: string)
    ensures str == "" <==> options == {}
    ensures str != "" ==> str[0] == ' '
  {
    SuffixStartsWithSpace(SortedOptions(options));
    OptionsSuffix(SortedOptions(options))
  }

  /** The cache key of a program built with a set of options. */
  ghost function BuildKey(programName: string, options: set<string>): (key: string)
    ensures |key| >= |programName| && key[..|programName|] == programName
    ensures key == programName <==> options == {}
    ensures options != {} ==> key[|programName|] == ' '
  {
    programName + CanonicalOptions(options)
  }

  /** Taking the least option off the front of the canonical string. */
  lemma CanonicalOptionsUnfold(s: set<string>)
    requires s != {}
    ensures CanonicalOptions(s) == " " + Least(s) + CanonicalOptions(s - {Least(s)})
  {
    var m := Least(s);
    var r := SortedOptions(s);
    assert r == [m] + SortedOptions(s - {m});
    assert r[0] == m && r[1..] == SortedOptions(s - {m});
  }

  /** One iteration of the concatenation loop keeps its invariant. */
  lemma CanonicalOptionsStep(str: string, remaining: set<string>, option: string)
    requires IsLeast(option, remaining)
    ensures str + CanonicalOptions(remaining) == (str + " " + option) + CanonicalOptions(remaining - {option})
  {
    LeastUnique(option, Least(remaining), remaining);
    var rest := SortedOptions(remaining - {option});
    assert SortedOptions(remaining) == [option] + rest;
    OptionsSuffixCons(str, option, rest);
  }

  /** Appending the suffix of a sequence is appending its head, then the suffix of its tail. */
  lemma OptionsSuffixCons(str: string, option: string, rest: seq<string>)
    ensures str + OptionsSuffix([option] + rest) == (str + " " + option) + OptionsSuffix(rest)
  {
    assert ([option] + rest)[1..] == rest;
  }


  /** The loop of BuildKernel that concatenates the options in iteration order. */
  method BuildOptionsString(options: set<string>) returns (str: string)
    ensures str == CanonicalOptions(options)
  {
    str := "";
    var remaining := options;
    while remaining != {}
      invariant str + CanonicalOptions(remaining) == CanonicalOptions(options)
      decreases |remaining|
    {
      LeastExists(remaining);
      var option :| IsLeast(option, remaining);
      CanonicalOptionsStep(str, remaining, option);
      str := str + " " + option;
      remaining := remaining - {option};
    }
  }

  /** The key depends on the options only as a set: inserting the same
      options in any order, any number of times each, gives the same key. */
  lemma KeyIgnoresInsertionOrder(programName: string, inserted1: seq<string>, inserted2: seq<string>)
    requires forall o :: o in inserted1 <==> o in inserted2
    ensures BuildKey(programName, set o | o in inserted1) == BuildKey(programName, set o | o in inserted2)
  {
    assert (set o | o in inserted1) == (set o | o in inserted2);
  }

  predicate SpaceFree(option: string)
  {
    forall i :: 0 <= i < |option| ==> option[i] != ' '
  }

  lemma SuffixStartsWithSpace(opts: seq<string>)
    ensures OptionsSuffix(opts) == "" <==> opts == []
    ensures opts != [] ==> OptionsSuffix(opts)[0] == ' '
  {
  }

  /** The index of the first space in s, or |s| when there is none. */
  function FirstSpace(s: string): (index: nat)
  {
    if s == [] || s[0] == ' ' then 0 else 1 + FirstSpace(s[1..])
  }

  /** A space-free word followed by nothing or by a space ends at the first space. */
  lemma {:induction false} FirstSpaceAfterWord(x: string, tail: string)
    requires SpaceFree(x)
    requires tail == [] || tail[0] == ' '
    ensures FirstSpace(x + tail) == |x|
  {
    if x != [] {
      assert (x + tail)[1..] == x[1..] + tail;
      FirstSpaceAfterWord(x[1..], tail);
    }
  }

  /** So such a word is determined by the concatenation. */
  lemma SplitAtSpace(x: string, tx: string, y: string, ty: string)
    requires x + tx == y + ty
    requires SpaceFree(x) && SpaceFree(y)
    requires tx == [] || tx[0] == ' '
    requires ty == [] || ty[0] == ' '
    ensures x == y && tx == ty
  {
    var a := x + tx;
    FirstSpaceAfterWord(x, tx);
    FirstSpaceAfterWord(y, ty);
    assert x == a[..|x|] == y;
    assert tx == a[|x|..] == ty;
  }

  /** Splitting the suffix at its spaces recovers the options, as long as no option holds a space. */
  lemma {:induction false} OptionsSuffixInjective(xs: seq<string>, ys: seq<string>)
    requires forall o :: o in xs ==> SpaceFree(o)
    requires forall o :: o in ys ==> SpaceFree(o)
    requires OptionsSuffix(xs) == OptionsSuffix(ys)
    ensures xs == ys
    decreases |xs|
  {
    SuffixStartsWithSpace(xs);
    SuffixStartsWithSpace(ys);
    if xs != [] {
      var x, y := xs[0], ys[0];
      var tx, ty := OptionsSuffix(xs[1..]), OptionsSuffix(ys[1..]);
      assert OptionsSuffix(xs)[1..] == x + tx;
      assert OptionsSuffix(ys)[1..] == y + ty;
      SuffixStartsWithSpace(xs[1..]);
      SuffixStartsWithSpace(ys[1..]);
      SplitAtSpace(x, tx, y, ty);
      OptionsSuffixInjective(xs[1..], ys[1..]);
      assert xs == [x] + xs[1..] && ys == [y] + ys[1..];
    }
  }

  /** Distinct option sets under one program name give distinct keys, provided no option contains a space. */
  lemma DistinctOptionSetsDistinctKeys(programName: string, options1: set<string>, options2: set<string>)
    requires forall o :: o in options1 ==> SpaceFree(o)
    requires forall o :: o in options2 ==> SpaceFree(o)
    requires options1 != options2
    ensures BuildKey(programName, options1) != BuildKey(programName, options2)
  {
    var s1, s2 := SortedOptions(options1), SortedOptions(options2);
    if BuildKey(programName, options1) == BuildKey(programName, options2) {
      var key := BuildKey(programName, options1);
      assert OptionsSuffix(s1) == key[|programName|..];
      assert OptionsSuffix(s2) == key[|programName|..];
      OptionsSuffixInjective(s1, s2);
      assert forall o :: o in options1 <==> o in options2;
      assert false;
    }
  }

  /** With a space inside an option the key no longer tells the sets apart:
      {"a b"} and {"a", "b"} share the key "k a b". */
  lemma OptionsWithSpacesCollide()
    ensures {"a b"} != {"a", "b"}
    ensures BuildKey("k", {"a b"}) == BuildKey("k", {"a", "b"}) == "k a b"
  {
    assert "a" != "a b";
    assert Least({"a b"}) == "a b";
    assert {"a b"} - {"a b"} == {};
    assert SortedOptions({"a b"}) == ["a b"];
    var m := Least({"a", "b"});
    assert Less("a", "b");
    LessAsymmetric("a", "b");
    assert m == "a";
    assert {"a", "b"} - {"a"} == {"b"};
    assert Least({"b"}) == "b";
    assert {"b"} - {"b"} == {};
    assert SortedOptions({"b"}) == ["b"];
    assert SortedOptions({"a", "b"}) == ["a", "b"];
    assert OptionsSuffix(["a", "b"]) == " a b" by {
      assert ["a", "b"][1..] == ["b"];
      assert ["b"][1..] == [];
    }
    assert OptionsSuffix(["a b"]) == " a b";
  }
}
