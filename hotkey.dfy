/**
 * Parsing of hotkey strings such as "Ctrl+Alt+R" (`parse_hotkey`, written identically in the
 * multiple-choice and the coding variant of the program).
 */
module Hotkey {
  import opened Wrappers
  import opened Text

  /** The canonical modifier a lower-case segment stands for, if it is a known alias. */
  function ModifierName(part: string): (r: Option<string>)
    ensures r.Some? ==> r.value in {"control", "alt", "win", "shift"}
  {
    if part == "ctrl" || part == "control" then Some("control")
    else if part == "alt" then Some("alt")
    else if part == "win" || part == "windows" then Some("win")
    else if part == "shift" then Some("shift")
    else None
  }

  /** The modifiers that `segments` name, in order; segments that name none are dropped. */
  function Modifiers(segments: seq<string>): (r: seq<string>)
    ensures forall k :: 0 <= k < |r| ==> r[k] in {"control", "alt", "win", "shift"}
    decreases |segments|
  {
    if |segments| == 0 then []
    else
      var last := segments[|segments| - 1];
      Modifiers(segments[..|segments| - 1])
        + (match ModifierName(last) case Some(m) => [m] case None => [])
  }

  /** The segments of a hotkey string: the lower-cased string split on '+'. */
  function Segments(hotkey: string): (parts: seq<string>)
    ensures |parts| >= 1
  {
    Split(Lower(hotkey), '+')
  }

  /** `parse_hotkey`: every segment but the last is looked up as a modifier, the last is the key. */
  method ParseHotkey(hotkey: string) returns (modifiers: seq<string>, key: string)
    ensures var parts := Segments(hotkey);
            key == parts[|parts| - 1] && modifiers == Modifiers(parts[..|parts| - 1])
  {
    var parts := Split(Lower(hotkey), '+');
    modifiers := [];
    key := parts[|parts| - 1];
    var i := 0;
    while i < |parts| - 1
      invariant 0 <= i <= |parts| - 1
      invariant modifiers == Modifiers(parts[..i])
    {
      var part := parts[i];
      assert parts[..i + 1][..i] == parts[..i];
      if part == "ctrl" || part == "control" {
        modifiers := modifiers + ["control"];
      } else if part == "alt" {
        modifiers := modifiers + ["alt"];
      } else if part == "win" || part == "windows" {
        modifiers := modifiers + ["win"];
      } else if part == "shift" {
        modifiers := modifiers + ["shift"];
      }
      i := i + 1;
    }
    if key == "enter" {
      key := "enter";
    }
  }

  /** The list the hotkey library is given: the modifiers followed by the key. */
  function Definition(hotkey: string): (d: seq<string>)
    ensures |d| >= 1
  {
    var parts := Segments(hotkey);
    Modifiers(parts[..|parts| - 1]) + [parts[|parts| - 1]]
  }

  /** Looking segments up keeps their order: the modifiers of a concatenation concatenate. */
  lemma {:induction false} ModifiersAppend(xs: seq<string>, ys: seq<string>)
    ensures Modifiers(xs + ys) == Modifiers(xs) + Modifiers(ys)
    decreases |ys|
  {
    if |ys| == 0 {
      assert xs + ys == xs;
    } else {
      var zs := xs + ys;
      assert zs[..|zs| - 1] == xs + ys[..|ys| - 1];
      assert zs[|zs| - 1] == ys[|ys| - 1];
      ModifiersAppend(xs, ys[..|ys| - 1]);
    }
  }

  /** A single segment contributes its canonical modifier when it is a known alias, else nothing. */
  lemma ModifiersOfOne(part: string)
    ensures Modifiers([part]) == match ModifierName(part) case Some(m) => [m] case None => []
  {
    assert [part][..0] == [];
  }

  /** At most one modifier per segment, and each one is a canonical name. */
  lemma {:induction false} ModifiersBound(segments: seq<string>)
    ensures |Modifiers(segments)| <= |segments|
    ensures forall k :: 0 <= k < |Modifiers(segments)| ==>
              Modifiers(segments)[k] in {"control", "alt", "win", "shift"}
    decreases |segments|
  {
    if |segments| > 0 {
      ModifiersBound(segments[..|segments| - 1]);
    }
  }

  /** A segment that is no known alias is dropped without a trace. */
  lemma UnknownSegmentDropped(xs: seq<string>, part: string, ys: seq<string>)
    requires ModifierName(part).None?
    ensures Modifiers(xs + [part] + ys) == Modifiers(xs) + Modifiers(ys)
  {
    ModifiersAppend(xs + [part], ys);
    ModifiersAppend(xs, [part]);
    ModifiersOfOne(part);
  }

  /**
   * The key is exactly the last '+'-separated segment of the lower-cased string: it holds no
   * '+', and the lower-cased string is the key alone or ends in '+' followed by the key.
   * There are at most as many modifiers as segments before the key.
   */
  lemma KeyIsLastSegment(hotkey: string)
    ensures var parts := Segments(hotkey);
            var key := parts[|parts| - 1];
            && FreeOf(key, '+')
            && (|parts| == 1 ==> key == Lower(hotkey))
            && (|parts| > 1 ==> Lower(hotkey) == Join(parts[..|parts| - 1], "+") + "+" + key)
            && |Modifiers(parts[..|parts| - 1])| <= |parts| - 1
  {
    var parts := Segments(hotkey);
    SplitPiecesFree(Lower(hotkey), '+');
    JoinSplit(Lower(hotkey), '+');
    if |parts| > 1 {
      JoinSnoc(parts, "+");
    }
    ModifiersBound(parts[..|parts| - 1]);
  }

  /** The default capture hotkey of the multiple-choice overlay parses to control, alt and "r". */
  lemma DefaultCaptureHotkey()
    ensures Definition("Ctrl+Alt+R") == ["control", "alt", "r"]
  {
    DefaultCaptureSegments();
    var parts: seq<string> := ["ctrl", "alt", "r"];
    assert parts[..2] == ["ctrl"] + ["alt"];
    ModifiersAppend(["ctrl"], ["alt"]);
    ModifiersOfOne("ctrl");
    ModifiersOfOne("alt");
    assert Modifiers(parts[..2]) == ["control", "alt"];
    assert Definition("Ctrl+Alt+R") == Modifiers(parts[..2]) + [parts[2]];
  }

  lemma DefaultCaptureSegments()
    ensures Segments("Ctrl+Alt+R") == ["ctrl", "alt", "r"]
  {
    var lowered := Lower("Ctrl+Alt+R");
    assert lowered == "ctrl+alt+r" by {
      assert |lowered| == 10;
      forall i | 0 <= i < 10 ensures lowered[i] == "ctrl+alt+r"[i] {
      }
    }
    SplitJoin(["ctrl", "alt", "r"], '+');
    assert Join(["ctrl", "alt", "r"], "+") == "ctrl+alt+r";
  }
}
