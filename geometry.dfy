/**
 * What the exporter reads off one group before it touches the document:
 * bounds, size, centre, artboard-relative position, scale of the preview,
 * and the file-safe name (AiInfoExport.js, lines 89-123 and 148).
 */
module Geometry {
  import opened Wrappers
  import opened JsonText

  /** An Illustrator rectangle [left, top, right, bottom]; y grows upward. */
  datatype Rect = Rect(left: real, top: real, right: real, bottom: real)

  /** `geometricBounds` is usable only when present and of length 4. */
  function BoundsRect(bounds: Option<seq<real>>): (r: Option<Rect>)
    ensures r.Some? <==> bounds.Some? && |bounds.value| == 4
    ensures r.Some? ==> r.value == Rect(bounds.value[0], bounds.value[1], bounds.value[2], bounds.value[3])
  {
    if bounds.Some? && |bounds.value| == 4
    then Some(Rect(bounds.value[0], bounds.value[1], bounds.value[2], bounds.value[3]))
    else None
  }

  function Width(b: Rect): real {
    b.right - b.left
  }

  function Height(b: Rect): real {
    b.top - b.bottom
  }

  function Abs(x: real): real {
    if x < 0.0 then -x else x
  }

  /** The larger of the absolute width and the absolute height. */
  function MaxDim(b: Rect): (m: real)
    ensures m >= Abs(Width(b)) && m >= Abs(Height(b))
    ensures m == Abs(Width(b)) || m == Abs(Height(b))
  {
    if Abs(Width(b)) >= Abs(Height(b)) then Abs(Width(b)) else Abs(Height(b))
  }

  /** A group is too small to render exactly when its bounds are a single point. */
  predicate Degenerate(b: Rect)
    ensures Degenerate(b) <==> b.left == b.right && b.top == b.bottom
  {
    MaxDim(b) <= 0.0
  }

  /** Horizontal position: the centre's distance from the artboard's left edge. */
  function RelX(b: Rect, abLeft: real): (x: real)
    ensures x == (b.left + b.right) / 2.0 - abLeft
    ensures x + abLeft - b.left == b.right - (x + abLeft)
  {
    var centerX := b.left + Width(b) / 2.0;
    centerX - abLeft
  }

  /** Vertical position: the centre's distance below the artboard's top edge. */
  function RelY(b: Rect, abTop: real): (y: real)
    ensures y == abTop - (b.top + b.bottom) / 2.0
    ensures b.top - (abTop - y) == (abTop - y) - b.bottom
  {
    var centerY := b.top - Height(b) / 2.0;
    abTop - centerY
  }

  /** The export scale in percent that makes the larger side `thumbSize` pixels. */
  function ScalePercent(thumbSize: real, maxDim: real): (p: real)
    requires maxDim > 0.0
    ensures maxDim * p / 100.0 == thumbSize
  {
    (thumbSize / maxDim) * 100.0
  }

  lemma ScaleExample()
    ensures ScalePercent(128.0, 256.0) == 50.0
  {
  }

  /** `\w` (ASCII letters, digits, underscore) or `-`: the characters safeName keeps. */
  predicate SafeChar(c: char) {
    ('A' <= c <= 'Z') || ('a' <= c <= 'z') || ('0' <= c <= '9') || c == '_' || c == '-'
  }

  /** safeName: every character other than a word character or `-` becomes `_`. */
  function SafeName(name: string): (r: string)
    ensures |r| == |name|
    ensures forall k :: 0 <= k < |name| ==> r[k] == (if SafeChar(name[k]) then name[k] else '_')
  {
    if name == [] then [] else [if SafeChar(name[0]) then name[0] else '_'] + SafeName(name[1..])
  }

  /** Every character of a sanitised name is safe, so sanitising again changes nothing. */
  lemma SafeNameIdempotent(name: string)
    ensures forall k :: 0 <= k < |SafeName(name)| ==> SafeChar(SafeName(name)[k])
    ensures SafeName(SafeName(name)) == SafeName(name)
  {
  }

  /** A name is kept as it is exactly when it is made of safe characters only. */
  lemma SafeNameFixed(name: string)
    ensures SafeName(name) == name <==> forall k :: 0 <= k < |name| ==> SafeChar(name[k])
  {
    if SafeName(name) == name {
      forall k | 0 <= k < |name| ensures SafeChar(name[k]) {
        assert SafeName(name)[k] == name[k];
      }
    }
  }

  lemma SafeNameExample()
    ensures SafeName("A/B C") == "A_B_C"
  {
    var r := SafeName("A/B C");
    assert r[0] == 'A' && r[1] == '_' && r[2] == 'B' && r[3] == '_' && r[4] == 'C';
  }

  /** The group's name, or `"Group_" + i` when it has none. */
  function DisplayName(name: string, i: nat): (r: string)
    ensures r != ""
    ensures name != "" ==> r == name
    ensures name == "" ==> r == "Group_" + NatToString(i)
  {
    if name != "" then name else "Group_" + NatToString(i)
  }

  /** A generated name needs no sanitising. */
  lemma GeneratedNameIsSafe(i: nat)
    ensures SafeName(DisplayName("", i)) == "Group_" + NatToString(i)
  {
    var n := "Group_" + NatToString(i);
    forall k | 0 <= k < |n| ensures SafeChar(n[k]) {
      if k >= 6 {
        assert n[k] == NatToString(i)[k - 6];
      }
    }
    SafeNameFixed(n);
  }

  lemma GeneratedNameExample()
    ensures DisplayName("", 2) == "Group_2"
  {
    assert NatToString(2) == "2";
  }

  /** A sanitised name holds nothing escJSON would rewrite. */
  lemma SafeNameNeedsNoEscape(name: string)
    ensures Escape(SafeName(name)) == SafeName(name)
  {
    var r := SafeName(name);
    forall k | 0 <= k < |r| ensures !NeedsEscape(r[k]) {
      assert SafeChar(r[k]);
    }
    EscapeIsIdentity(r);
  }
}
