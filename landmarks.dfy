/**
 * Hand landmarks as the detector reports them, their point-major flattening
 * into one coordinate vector, the x-mirroring applied by the backend, and the
 * comma-joined text the capture pages store.
 */
module Landmarks {
  import opened Common
  import opened Text

  /** One detected point with normalised coordinates. */
  datatype Landmark = Landmark(x: real, y: real, z: real)

  /** The landmarks of one hand, in detector order (the detector reports 21 of them). */
  type Hand = seq<Landmark>

  /** Points per hand reported by the detector. */
  const LandmarksPerHand: nat := 21

  /** Length of the flattened vector of one complete hand. */
  const VectorLength: nat := 3 * LandmarksPerHand

  /** `landmarks.map(lm => [lm.x, lm.y, lm.z]).flat()`: x, y, z of each point in turn. */
  function Flatten(h: Hand): (v: seq<real>)
    ensures |v| == 3 * |h|
    ensures forall i :: 0 <= i < |h| ==> v[3 * i] == h[i].x && v[3 * i + 1] == h[i].y && v[3 * i + 2] == h[i].z
  {
    if h == [] then []
    else
      var rest := Flatten(h[1..]);
      var v := [h[0].x, h[0].y, h[0].z] + rest;
      assert forall i :: 1 <= i < |h| ==> h[i] == h[1..][i - 1] && v[3 * i] == rest[3 * (i - 1)];
      v
  }

  /** Regroups a vector of coordinate triples into landmarks; the reference inverse of Flatten. */
  function Unflatten(v: seq<real>): (h: Hand)
    requires |v| % 3 == 0
    ensures 3 * |h| == |v|
    ensures forall i :: 0 <= i < |h| ==> h[i] == Landmark(v[3 * i], v[3 * i + 1], v[3 * i + 2])
  {
    if v == [] then []
    else
      var rest := Unflatten(v[3..]);
      var h := [Landmark(v[0], v[1], v[2])] + rest;
      assert forall i :: 1 <= i < |h| ==> h[i] == rest[i - 1] && v[3..][3 * (i - 1)] == v[3 * i];
      h
  }

  /** A complete hand flattens to the 63 values the classifier expects. */
  lemma CompleteHandLength(h: Hand)
    requires |h| == LandmarksPerHand
    ensures |Flatten(h)| == 63
  {
  }

  /** Regrouping a flattened hand gives back the hand. */
  lemma UnflattenFlatten(h: Hand)
    ensures Unflatten(Flatten(h)) == h
  {
    var v := Flatten(h);
    var g := Unflatten(v);
    assert |g| == |h|;
    forall i | 0 <= i < |h| ensures g[i] == h[i] {
      assert g[i] == Landmark(v[3 * i], v[3 * i + 1], v[3 * i + 2]);
    }
  }

  /** Flattening a regrouped vector gives back the vector. */
  lemma {:induction false} FlattenUnflatten(v: seq<real>)
    requires |v| % 3 == 0
    ensures Flatten(Unflatten(v)) == v
  {
    if v != [] {
      var h := Unflatten(v);
      assert h[1..] == Unflatten(v[3..]);
      FlattenUnflatten(v[3..]);
      assert Flatten(h) == [v[0], v[1], v[2]] + Flatten(h[1..]);
      assert v == [v[0], v[1], v[2]] + v[3..];
    }
  }

  /** `v[0::3] = 1 - v[0::3]`: every x coordinate (indices 0, 3, 6, ...) becomes 1 - x. */
  function Mirror(v: seq<real>): (m: seq<real>)
    ensures |m| == |v|
    ensures forall i :: 0 <= i < |v| && i % 3 != 0 ==> m[i] == v[i]
    ensures forall i :: 0 <= i < |v| && i % 3 == 0 ==> m[i] + v[i] == 1.0
  {
    seq(|v|, i requires 0 <= i < |v| => if i % 3 == 0 then 1.0 - v[i] else v[i])
  }

  /** A hand reflected left-to-right: x becomes 1 - x, y and z are kept. */
  function MirrorHand(h: Hand): (m: Hand)
    ensures |m| == |h|
  {
    seq(|h|, i requires 0 <= i < |h| => Landmark(1.0 - h[i].x, h[i].y, h[i].z))
  }

  /** Mirroring the flat vector is reflecting every landmark of the hand and nothing else. */
  lemma MirrorIsHandReflection(h: Hand)
    ensures Mirror(Flatten(h)) == Flatten(MirrorHand(h))
  {
    var v := Flatten(h);
    var m := MirrorHand(h);
    var w := Flatten(m);
    forall k | 0 <= k < |v| ensures Mirror(v)[k] == w[k] {
      var i := k / 3;
      assert k == 3 * i || k == 3 * i + 1 || k == 3 * i + 2;
      assert m[i] == Landmark(1.0 - h[i].x, h[i].y, h[i].z);
    }
  }

  /** Mirroring twice restores the vector. */
  lemma MirrorInvolution(v: seq<real>)
    ensures Mirror(Mirror(v)) == v
  {
    var m := Mirror(v);
    forall i | 0 <= i < |v| ensures Mirror(m)[i] == v[i] {
      if i % 3 == 0 {
        assert Mirror(m)[i] == 1.0 - m[i] == 1.0 - (1.0 - v[i]);
      }
    }
  }

  /**
   * No formatted number contains the field separator, the row separator or
   * '#' (`toFixed` writes digits, a sign and a point).
   */
  ghost predicate FormatSafe(fmt: real -> string)
  {
    forall x :: ',' !in fmt(x) && '\n' !in fmt(x) && '#' !in fmt(x)
  }

  /** Each coordinate rendered by `fmt` (the page's `toFixed(4)`), in order. */
  function Formatted(fmt: real -> string, v: seq<real>): (t: seq<string>)
    ensures |t| == |v|
    ensures forall i :: 0 <= i < |v| ==> t[i] == fmt(v[i])
  {
    seq(|v|, i requires 0 <= i < |v| => fmt(v[i]))
  }

  /** `v.map(x => x.toFixed(4)).join(',')`. */
  function CoordsString(fmt: real -> string, v: seq<real>): (r: string)
    ensures FormatSafe(fmt) && |v| >= 1 ==> Occurrences(r, ',') == |v| - 1
  {
    FormattedKeepsOut(fmt, v, ',');
    JoinCountsSeparators(Formatted(fmt, v), ',');
    Join(Formatted(fmt, v), ',')
  }

  /** A safe formatter puts no separator and no '#' into any formatted coordinate. */
  lemma FormattedKeepsOut(fmt: real -> string, v: seq<real>, c: char)
    requires c == ',' || c == '\n' || c == '#'
    ensures FormatSafe(fmt) ==> forall i :: 0 <= i < |v| ==> c !in Formatted(fmt, v)[i]
  {
    if FormatSafe(fmt) {
      forall i | 0 <= i < |v| ensures c !in Formatted(fmt, v)[i] {
        var x := v[i];
        assert ',' !in fmt(x) && '\n' !in fmt(x) && '#' !in fmt(x);
      }
    }
  }

  /** The coordinate text splits back into exactly the formatted coordinates. */
  lemma CoordsStringFields(fmt: real -> string, v: seq<real>)
    requires FormatSafe(fmt)
    requires |v| >= 1
    ensures Split(CoordsString(fmt, v), ',') == Formatted(fmt, v)
  {
    FormattedKeepsOut(fmt, v, ',');
    SplitJoin(Formatted(fmt, v), ',');
  }

  /** The coordinate text of two or more values contains a comma, so it is never the falsy empty string. */
  lemma CoordsStringNonEmpty(fmt: real -> string, v: seq<real>)
    requires |v| >= 2
    ensures CoordsString(fmt, v) != ""
  {
    var t := Formatted(fmt, v);
    assert CoordsString(fmt, v) == t[0] + [','] + Join(t[1..], ',');
  }

  /** The coordinate text contains neither a newline nor '#', since the formatter produces neither. */
  lemma CoordsStringKeepsOut(fmt: real -> string, v: seq<real>, c: char)
    requires FormatSafe(fmt)
    requires c == '\n' || c == '#'
    ensures c !in CoordsString(fmt, v)
  {
    FormattedKeepsOut(fmt, v, c);
    JoinKeepsOut(Formatted(fmt, v), ',', c);
  }

  /** Joining parts that avoid `c` with a separator other than `c` avoids `c`. */
  lemma {:induction false} JoinKeepsOut(parts: seq<string>, sep: char, c: char)
    requires sep != c
    requires forall i :: 0 <= i < |parts| ==> c !in parts[i]
    ensures c !in Join(parts, sep)
  {
    if |parts| > 1 {
      JoinKeepsOut(parts[1..], sep, c);
    }
  }
}
