/**
 * Dotted metric names, as `MetricRegistry.name(String name, String... names)`
 * of metrics-core builds them: it walks the parts with a string builder, skips
 * every part that is null or empty, and puts a '.' between two kept parts.
 * That method is not part of this model's source files; it is specified here
 * from that documented behaviour and proved equal to a plain "join the present
 * parts with '.'" definition.
 */
module Naming {
  import opened JavaLang

  /** One builder step: keep `part` unless it is empty, with a '.' before it when text is already there. */
  function Append(acc: string, part: string): string {
    if part == "" then acc else if acc == "" then part else acc + "." + part
  }

  function AppendAll(acc: string, parts: seq<string>): string
    decreases |parts|
  {
    if parts == [] then acc else AppendAll(Append(acc, parts[0]), parts[1..])
  }

  /** `MetricRegistry.name(name, names...)`; a null first part counts as absent. */
  function Name(name: Option<string>, names: seq<string>): (r: string)
    ensures r == Joined(Present([if name.Some? then name.value else ""] + names))
  {
    var first := if name.Some? then name.value else "";
    AppendAllJoins(first, names);
    AppendAll(Append("", first), names)
  }

  /** The non-empty parts, in order. */
  function Present(parts: seq<string>): (r: seq<string>)
    ensures |r| <= |parts|
    ensures forall i :: 0 <= i < |r| ==> r[i] != ""
    decreases |parts|
  {
    if parts == [] then []
    else (if parts[0] == "" then [] else [parts[0]]) + Present(parts[1..])
  }

  /** The parts joined with '.' between neighbours. */
  function Joined(parts: seq<string>): string
    decreases |parts|
  {
    if |parts| == 0 then ""
    else if |parts| == 1 then parts[0]
    else parts[0] + "." + Joined(parts[1..])
  }

  lemma JoinedCons(p: string, rest: seq<string>)
    requires rest != []
    ensures Joined([p] + rest) == p + "." + Joined(rest)
  {
    assert ([p] + rest)[1..] == rest;
  }

  lemma PresentCons(x: string, rest: seq<string>)
    ensures Present([x] + rest) == (if x == "" then [] else [x]) + Present(rest)
  {
    assert ([x] + rest)[1..] == rest;
  }

  /** Joining `acc` and `p` first, then the rest, gives the same text as joining all of them. */
  lemma JoinedMerge(acc: string, p: string, tail: seq<string>)
    requires acc != "" && p != ""
    ensures Joined([acc] + ([p] + tail)) == Joined([acc + "." + p] + tail)
  {
    if tail == [] {
      assert [acc] + ([p] + tail) == [acc, p];
      JoinedCons(acc, [p]);
      assert [acc + "." + p] + tail == [acc + "." + p];
    } else {
      JoinedCons(acc, [p] + tail);
      JoinedCons(p, tail);
      assert acc + "." + (p + "." + Joined(tail)) == (acc + "." + p) + "." + Joined(tail);
      JoinedCons(acc + "." + p, tail);
    }
  }

  /** An empty part between `acc` and the rest is dropped. */
  lemma PresentSkipsEmpty(acc: string, rest: seq<string>)
    ensures Present([acc] + ([""] + rest)) == Present([acc] + rest)
  {
    PresentCons(acc, [""] + rest);
    PresentCons("", rest);
    PresentCons(acc, rest);
  }

  /** An empty `acc` before the rest is dropped. */
  lemma PresentAfterEmpty(p: string, rest: seq<string>)
    ensures Present([""] + ([p] + rest)) == Present([p] + rest)
  {
    PresentCons("", [p] + rest);
  }

  /** Two present parts joined first give the same text as joining all of them. */
  lemma JoinedPresentMerge(acc: string, p: string, rest: seq<string>)
    requires acc != "" && p != ""
    ensures Joined(Present([acc] + ([p] + rest))) == Joined(Present([acc + "." + p] + rest))
  {
    var tail := Present(rest);
    PresentCons(acc, [p] + rest);
    PresentCons(p, rest);
    PresentCons(acc + "." + p, rest);
    JoinedMerge(acc, p, tail);
  }

  /** One builder step joins the same present parts as keeping both texts and joining later. */
  lemma AppendStep(acc: string, p: string, rest: seq<string>)
    ensures Joined(Present([acc] + ([p] + rest))) == Joined(Present([Append(acc, p)] + rest))
  {
    if p == "" {
      PresentSkipsEmpty(acc, rest);
    } else if acc == "" {
      PresentAfterEmpty(p, rest);
    } else {
      JoinedPresentMerge(acc, p, rest);
    }
  }

  lemma {:induction false} AppendAllJoins(acc: string, parts: seq<string>)
    ensures AppendAll(Append("", acc), parts) == Joined(Present([acc] + parts))
    decreases |parts|
  {
    assert Append("", acc) == acc;
    if parts == [] {
      PresentCons(acc, []);
      assert [acc] + [] == [acc];
    } else {
      var p, rest := parts[0], parts[1..];
      assert parts == [p] + rest;
      var next := Append(acc, p);
      assert Append("", next) == next;
      AppendAllJoins(next, rest);
      AppendStep(acc, p, rest);
    }
  }

  /** Splits a string at every '.'; always at least one segment. */
  function Segments(s: string): (r: seq<string>)
    ensures |r| >= 1
    decreases |s|
  {
    if s == [] then [""]
    else
      var rest := Segments(s[1..]);
      if s[0] == '.' then [""] + rest else [[s[0]] + rest[0]] + rest[1..]
  }

  lemma {:induction false} SegmentsOfDotFreeHead(p: string, x: string)
    requires '.' !in p
    ensures Segments(p + x) == [p + Segments(x)[0]] + Segments(x)[1..]
    decreases |p|
  {
    if p != [] {
      assert (p + x)[1..] == p[1..] + x;
      SegmentsOfDotFreeHead(p[1..], x);
      assert [p[0]] + (p[1..] + Segments(x)[0]) == p + Segments(x)[0];
    } else {
      var sx := Segments(x);
      assert p + x == x;
      assert p + sx[0] == sx[0];
      assert [sx[0]] + sx[1..] == sx;
    }
  }

  /** Joining dot-free, non-empty parts with '.' and splitting the result at '.' gives the parts back. */
  lemma {:induction false} SegmentsOfJoined(parts: seq<string>)
    requires parts != []
    requires forall i :: 0 <= i < |parts| ==> parts[i] != "" && '.' !in parts[i]
    ensures Segments(Joined(parts)) == parts
    decreases |parts|
  {
    var p := parts[0];
    if |parts| == 1 {
      SegmentsOfDotFreeHead(p, "");
      assert p + "" == p;
    } else {
      var rest := parts[1..];
      SegmentsOfJoined(rest);
      var j := Joined(rest);
      JoinedCons(p, rest);
      assert parts == [p] + rest;
      assert Joined(parts) == p + ("." + j);
      SegmentsOfDotFreeHead(p, "." + j);
      assert ("." + j)[1..] == j;
      assert Segments("." + j) == [""] + rest;
      assert p + "" == p;
    }
  }

  /** The segments of a string with one more character in front. */
  lemma SegmentsCons(c: char, s: string)
    ensures Segments([c] + s)
         == if c == '.' then [""] + Segments(s) else [[c] + Segments(s)[0]] + Segments(s)[1..]
  {
    assert ([c] + s)[1..] == s;
  }

  /** Splitting `a.b` at '.' gives the segments of `a`, then those of `b`. */
  lemma {:induction false} SegmentsOfDotted(a: string, b: string)
    ensures Segments(a + "." + b) == Segments(a) + Segments(b)
    decreases |a|
  {
    if a == [] {
      assert a + "." + b == ['.'] + b;
      SegmentsCons('.', b);
    } else {
      var c, tail := a[0], a[1..];
      assert a + "." + b == [c] + (tail + "." + b);
      assert a == [c] + tail;
      SegmentsOfDotted(tail, b);
      SegmentsCons(c, tail + "." + b);
      SegmentsCons(c, tail);
      if c != '.' {
        SegmentsGlue(c, Segments(tail), Segments(b));
      }
    }
  }

  /** Gluing a character onto the first segment commutes with appending more segments. */
  lemma SegmentsGlue(c: char, sa: seq<string>, sb: seq<string>)
    requires |sa| >= 1
    ensures [[c] + (sa + sb)[0]] + (sa + sb)[1..] == ([[c] + sa[0]] + sa[1..]) + sb
  {
    assert (sa + sb)[0] == sa[0];
    assert (sa + sb)[1..] == sa[1..] + sb;
  }

  /**
   * `MetricRegistry.name(first, second)` is a single builder step after the
   * first part: the records and the reporter use this form.
   */
  lemma NameOfPair(first: Option<string>, second: string)
    ensures Name(first, [second]) == Append(if first.Some? then first.value else "", second)
  {
    var f := if first.Some? then first.value else "";
    assert Append("", f) == f;
    assert [second][1..] == [];
    assert AppendAll(f, [second]) == AppendAll(Append(f, second), []);
  }

  /** Two non-empty parts are joined by exactly one '.'. */
  lemma NameOfTwo(a: string, b: string)
    requires a != "" && b != ""
    ensures Name(Some(a), [b]) == a + "." + b
  {
    assert Present([a] + [b]) == [a, b] by {
      assert ([a] + [b])[1..] == [b];
      assert [b][1..] == [];
    }
    JoinedCons(a, [b]);
  }

  /** A null or empty first part leaves the second part as the whole name. */
  lemma NameWithoutFirst(first: Option<string>, b: string)
    requires first.None? || first.value == ""
    ensures Name(first, [b]) == b
  {
    assert (([""] + [b])[1..]) == [b];
    assert [b][1..] == [];
    assert Present([""] + [b]) == Present([b]);
    if b == "" {
      assert Present([b]) == [];
    } else {
      assert Present([b]) == [b];
    }
  }
}
