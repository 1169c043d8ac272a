/** Dotted resource names: `org` for an organization, `org.project` for a
    project, and the pieces Go's `strings.Split(name, ".")` cuts them into. */
module Names {
  import opened Basic

  /** `strings.Split(s, ".")`: the maximal dot-free pieces of `s`, in order. */
  function Split(s: string): (r: seq<string>)
    ensures |r| >= 1
    ensures forall k :: 0 <= k < |r| ==> '.' !in r[k]
    decreases |s|
  {
    if |s| == 0 then [""]
    else
      var rest := Split(s[1..]);
      if s[0] == '.' then [""] + rest
      else [[s[0]] + rest[0]] + rest[1..]
  }

  /** `strings.Join(parts, ".")`. */
  function Join(parts: seq<string>): string
    requires |parts| >= 1
  {
    if |parts| == 1 then parts[0] else parts[0] + "." + Join(parts[1..])
  }

  /** Joining the pieces gives back the name. */
  lemma {:induction false} JoinSplit(s: string)
    ensures Join(Split(s)) == s
    decreases |s|
  {
    if |s| > 0 {
      JoinSplit(s[1..]);
      var rest := Split(s[1..]);
      if s[0] == '.' {
        assert Split(s) == [""] + rest;
        assert Join(Split(s)) == "" + "." + Join(rest);
        assert s == [s[0]] + s[1..];
      } else {
        var r := Split(s);
        assert r == [[s[0]] + rest[0]] + rest[1..];
        if |rest| == 1 {
          assert Join(r) == [s[0]] + rest[0];
          assert s == [s[0]] + s[1..];
        } else {
          assert r[1..] == rest[1..];
          assert Join(r) == [s[0]] + rest[0] + "." + Join(rest[1..]);
          assert Join(rest) == rest[0] + "." + Join(rest[1..]);
          assert s == [s[0]] + s[1..];
        }
      }
    }
  }

  /** A dot-free prefix sticks to the first piece of what follows it. */
  lemma {:induction false} SplitDotFreePrefix(a: string, b: string)
    requires '.' !in a
    ensures Split(a + b) == [a + Split(b)[0]] + Split(b)[1..]
    decreases |a|
  {
    if |a| > 0 {
      SplitDotFreePrefix(a[1..], b);
      assert (a + b)[1..] == a[1..] + b;
      assert (a + b)[0] == a[0];
      assert [a[0]] + (a[1..] + Split(b)[0]) == a + Split(b)[0];
    } else {
      assert a + b == b;
      var r := Split(b);
      assert r == [r[0]] + r[1..];
      assert a + r[0] == r[0];
    }
  }

  /** Splitting undoes joining when no piece contains a dot. */
  lemma {:induction false} SplitJoin(parts: seq<string>)
    requires |parts| >= 1
    requires forall k :: 0 <= k < |parts| ==> '.' !in parts[k]
    ensures Split(Join(parts)) == parts
    decreases |parts|
  {
    if |parts| == 1 {
      SplitDotFreePrefix(parts[0], "");
      assert parts[0] + "" == parts[0];
    } else {
      SplitJoin(parts[1..]);
      var tail := "." + Join(parts[1..]);
      SplitDotFreePrefix(parts[0], tail);
      assert tail[1..] == Join(parts[1..]);
      assert Split(tail) == [""] + parts[1..];
      assert parts[0] + "." + Join(parts[1..]) == parts[0] + tail;
      assert parts[0] + "" == parts[0];
      assert parts == [parts[0]] + parts[1..];
    }
  }

  /** `strings.Split(s, ".")[0]`: the organization part of a resource name. */
  function FirstSegment(s: string): string
  {
    Split(s)[0]
  }

  /** `strings.Split(s, ".")[1]`; None where Go indexes out of range (no dot). */
  function SecondSegment(s: string): Option<string>
  {
    var parts := Split(s);
    if |parts| > 1 then Some(parts[1]) else None
  }

  /** The resource name of a project: `org.project`. */
  function QualifiedName(orgName: string, projectName: string): (r: string)
    ensures '.' in r
  {
    assert (orgName + "." + projectName)[|orgName|] == '.';
    orgName + "." + projectName
  }

  /** The segments recover both halves of a qualified name whose halves are dot-free. */
  lemma QualifiedNameSegments(orgName: string, projectName: string)
    requires '.' !in orgName && '.' !in projectName
    ensures FirstSegment(QualifiedName(orgName, projectName)) == orgName
    ensures SecondSegment(QualifiedName(orgName, projectName)) == Some(projectName)
  {
    SplitJoin([orgName, projectName]);
    assert Join([orgName, projectName]) == orgName + "." + Join([projectName]);
  }

  /** A resource name without a dot is its own first segment and has no second one. */
  lemma DotFreeSegments(s: string)
    requires '.' !in s
    ensures FirstSegment(s) == s
    ensures SecondSegment(s) == None
  {
    SplitJoin([s]);
  }
  /** The number of bytes UTF-8 spends on one code point: one below 0x80,
      two below 0x800, three below 0x10000, four above. */
  function Utf8Width(c: char): nat
  {
    if c as int < 0x80 then 1 else if c as int < 0x800 then 2 else if c as int < 0x10000 then 3 else 4
  }

  /** Go's `len` of a string: the number of bytes of its UTF-8 encoding,
      at least one and at most four per character. */
  function Utf8Length(s: string): (r: nat)
    ensures |s| <= r <= 4 * |s|
    ensures r == |s| <==> forall i :: 0 <= i < |s| ==> s[i] as int < 0x80
  {
    if |s| == 0 then 0 else Utf8Width(s[0]) + Utf8Length(s[1..])
  }

  /** A name written in the Basic Multilingual Plane above U+07FF (CJK text,
      for one) takes three bytes per character. */
  lemma {:induction false} ThreeByteUtf8Length(s: string)
    requires forall i :: 0 <= i < |s| ==> 0x800 <= s[i] as int < 0x10000
    ensures Utf8Length(s) == 3 * |s|
    decreases |s|
  {
    if |s| > 0 {
      ThreeByteUtf8Length(s[1..]);
    }
  }
}
