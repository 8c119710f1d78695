/** The naming side of the assertion instrumentation installed at session
    start (`_patch_nose_tools_assert_functions` in py/funq/noseplugin.py): the
    `pep8` transform from camelCase `assertXxx` names to snake_case aliases,
    the filter that picks which names get an alias, and the installation of
    those aliases into the assertion-helper namespace. */
module AssertNaming {
  import opened Text

  /** Matches the regular expression class `[A-Z]`: ASCII upper case only. */
  predicate IsUpper(c: char) {
    'A' <= c <= 'Z'
  }

  predicate IsLower(c: char) {
    'a' <= c <= 'z'
  }

  /** `str.lower()` on an ASCII upper-case letter. */
  function ToLower(c: char): (r: char)
    requires IsUpper(c)
    ensures IsLower(r)
  {
    (c as int - 'A' as int + 'a' as int) as char
  }

  /** `str.upper()` on an ASCII lower-case letter. */
  function ToUpper(c: char): (r: char)
    requires IsLower(c)
    ensures IsUpper(r)
  {
    (c as int - 'a' as int + 'A' as int) as char
  }

  /** The number of ASCII upper-case letters in `s`. */
  function CountUpper(s: string): nat {
    if |s| == 0 then 0
    else (if IsUpper(s[0]) then 1 else 0) + CountUpper(s[1..])
  }

  predicate NoUpper(s: string) {
    forall i :: 0 <= i < |s| ==> !IsUpper(s[i])
  }

  predicate NoUnderscore(s: string) {
    forall i :: 0 <= i < |s| ==> s[i] != '_'
  }

  /** `pep8(name)`: every ASCII upper-case letter becomes `'_'` followed by
      its lower-case form; every other character is kept. */
  function Pep8(s: string): (r: string)
    ensures |r| == |s| + CountUpper(s)
    ensures NoUpper(r)
  {
    if |s| == 0 then ""
    else if IsUpper(s[0]) then ['_', ToLower(s[0])] + Pep8(s[1..])
    else [s[0]] + Pep8(s[1..])
  }

  /** An inverse of `Pep8` on names without underscores: `'_'` followed by a
      lower-case letter becomes that letter in upper case. */
  function Unpep8(s: string): string {
    if |s| == 0 then ""
    else if |s| >= 2 && s[0] == '_' && IsLower(s[1]) then [ToUpper(s[1])] + Unpep8(s[2..])
    else [s[0]] + Unpep8(s[1..])
  }

  /** The filter of the alias loop: the name starts with `assert` and holds no
      underscore. */
  predicate Qualifies(name: string): (ok: bool)
    ensures ok <==> |name| >= 6 && name[..6] == "assert" && '_' !in name
  {
    StartsWith(name, "assert") && NoUnderscore(name)
  }

  /** A name without upper-case letters is its own alias. */
  lemma {:induction false} Pep8NoUpper(s: string)
    requires NoUpper(s)
    ensures Pep8(s) == s
  {
    if |s| > 0 {
      Pep8NoUpper(s[1..]);
      assert [s[0]] + s[1..] == s;
    }
  }

  /** `Pep8` works character by character: it distributes over concatenation. */
  lemma {:induction false} Pep8Append(a: string, b: string)
    ensures Pep8(a + b) == Pep8(a) + Pep8(b)
  {
    if |a| > 0 {
      assert (a + b)[0] == a[0];
      assert (a + b)[1..] == a[1..] + b;
      Pep8Append(a[1..], b);
    } else {
      assert a + b == b;
    }
  }

  /** What `Pep8` does to one character. */
  lemma Pep8Char(c: char)
    ensures IsUpper(c) ==> Pep8([c]) == ['_', ToLower(c)]
    ensures !IsUpper(c) ==> Pep8([c]) == [c]
  {
  }

  /** Round trip: on names without underscores `Unpep8` recovers the name
      from its alias. */
  lemma {:induction false} Unpep8Pep8(s: string)
    requires NoUnderscore(s)
    ensures Unpep8(Pep8(s)) == s
  {
    if |s| > 0 {
      Unpep8Pep8(s[1..]);
      var t := Pep8(s);
      if IsUpper(s[0]) {
        assert t == ['_', ToLower(s[0])] + Pep8(s[1..]);
        assert t[2..] == Pep8(s[1..]);
        assert ToUpper(ToLower(s[0])) == s[0];
      } else {
        assert t == [s[0]] + Pep8(s[1..]);
        assert t[1..] == Pep8(s[1..]);
      }
      assert [s[0]] + s[1..] == s;
    }
  }

  /** Distinct qualifying names get distinct aliases, so no alias installed
      for one name is overwritten by another's. */
  lemma Pep8Injective(a: string, b: string)
    requires NoUnderscore(a) && NoUnderscore(b)
    ensures Pep8(a) == Pep8(b) <==> a == b
  {
    Unpep8Pep8(a);
    Unpep8Pep8(b);
  }

  /** The alias of a qualifying name still starts with `assert` and is in
      snake case; it is longer than the name by one underscore per capital. */
  lemma AliasShape(name: string)
    requires Qualifies(name)
    ensures StartsWith(Pep8(name), "assert")
    ensures NoUpper(Pep8(name))
    ensures |Pep8(name)| == |name| + CountUpper(name)
  {
    var head, rest := "assert", name[6..];
    assert name == head + rest;
    assert NoUpper(head) by {
      forall i | 0 <= i < |head| ensures !IsUpper(head[i]) { }
    }
    Pep8NoUpper(head);
    Pep8Append(head, rest);
    assert Pep8(name) == head + Pep8(rest);
    assert Pep8(name)[..6] == head;
  }

  /** A single capital between two snake-case words becomes an underscore
      and its lower-case form. */
  lemma Pep8OneCapital(head: string, c: char, tail: string)
    requires NoUpper(head) && IsUpper(c) && NoUpper(tail)
    ensures Pep8(head + [c] + tail) == head + ['_', ToLower(c)] + tail
  {
    Pep8Append(head + [c], tail);
    Pep8Append(head, [c]);
    Pep8NoUpper(head);
    Pep8NoUpper(tail);
    Pep8Char(c);
  }

  /** On an underscore-free name, `Pep8` introduces an underscore exactly when
      the name holds a capital. */
  lemma {:induction false} Pep8Underscore(s: string)
    requires NoUnderscore(s)
    ensures NoUnderscore(Pep8(s)) <==> NoUpper(s)
  {
    if |s| > 0 {
      var r := Pep8(s[1..]);
      Pep8Underscore(s[1..]);
      if IsUpper(s[0]) {
        assert Pep8(s)[0] == '_';
      } else {
        assert Pep8(s) == [s[0]] + r;
        assert NoUnderscore(r) ==> NoUnderscore(Pep8(s)) by {
          if NoUnderscore(r) {
            forall i | 0 <= i < |Pep8(s)| ensures Pep8(s)[i] != '_' {
              if i > 0 { assert Pep8(s)[i] == r[i - 1]; }
            }
          }
        }
        assert NoUnderscore(Pep8(s)) ==> NoUnderscore(r) by {
          if NoUnderscore(Pep8(s)) {
            forall i | 0 <= i < |r| ensures r[i] != '_' {
              assert r[i] == Pep8(s)[i + 1];
            }
          }
        }
        assert NoUpper(s[1..]) ==> NoUpper(s) by {
          if NoUpper(s[1..]) {
            forall i | 0 <= i < |s| ensures !IsUpper(s[i]) {
              if i > 0 { assert s[i] == s[1..][i - 1]; }
            }
          }
        }
      }
    }
  }

  /** The filter applied to an alias: the alias of a qualifying name passes
      the filter again exactly when it is the name itself.  An alias that
      differs from its name holds an underscore, so aliases found among the
      listed names are never aliased a second time. */
  lemma AliasRequalifies(name: string)
    requires Qualifies(name)
    ensures Qualifies(Pep8(name)) <==> Pep8(name) == name
  {
    AliasShape(name);
    Pep8Underscore(name);
    if NoUpper(name) {
      Pep8NoUpper(name);
    }
  }

  /** `assertEqual`'s alias. */
  lemma AssertEqualAlias()
    ensures Pep8("assertEqual") == "assert_equal"
  {
    var head, tail := "assert", "qual";
    assert NoUpper(head) by {
      forall i | 0 <= i < |head| ensures !IsUpper(head[i]) { }
    }
    assert NoUpper(tail) by {
      forall i | 0 <= i < |tail| ensures !IsUpper(tail[i]) { }
    }
    Pep8OneCapital(head, 'E', tail);
    assert head + ['E'] + tail == "assertEqual";
    assert head + ['_', 'e'] + tail == "assert_equal";
  }

  /** The aliases the loop installs for the listed names. */
  function Aliases(names: seq<string>): set<string> {
    set n | n in names && Qualifies(n) :: Pep8(n)
  }

  /** The assertion-helper namespace: an alias name bound to the assertion
      method (named by its original name) it calls. */
  type Namespace = map<string, string>

  /** The alias loop: for every listed name that qualifies, in order, binds
      `Pep8(name)` to that name; names that do not qualify are skipped. */
  function InstallAliases(ns: Namespace, names: seq<string>): (r: Namespace)
    ensures forall k :: k in r <==> k in ns || k in Aliases(names)
    ensures forall n :: n in names && Qualifies(n) ==> Pep8(n) in r && r[Pep8(n)] == n
    ensures forall k :: k in ns && k !in Aliases(names) ==> r[k] == ns[k]
    decreases |names|
  {
    if |names| == 0 then ns
    else
      var n := names[0];
      var ns' := if Qualifies(n) then ns[Pep8(n) := n] else ns;
      var r := InstallAliases(ns', names[1..]);
      assert Aliases(names) == Aliases([n]) + Aliases(names[1..]) by {
        assert names == [n] + names[1..];
      }
      forall m | m in names && Qualifies(m)
        ensures r[Pep8(m)] == m
      {
        if m !in names[1..] {
          assert m == n;
          if Pep8(m) in Aliases(names[1..]) {
            var m' :| m' in names[1..] && Qualifies(m') && Pep8(m') == Pep8(m);
            Pep8Injective(m, m');
          }
        }
      }
      r
  }

  /** Installing the same aliases twice changes nothing the first time did not. */
  lemma InstallIdempotent(ns: Namespace, names: seq<string>)
    ensures InstallAliases(InstallAliases(ns, names), names) == InstallAliases(ns, names)
  {
    var once := InstallAliases(ns, names);
    var twice := InstallAliases(once, names);
    forall k | k in once
      ensures twice[k] == once[k]
    {
      if k in Aliases(names) {
        var n :| n in names && Qualifies(n) && Pep8(n) == k;
      }
    }
  }
}
