/** Replacing every occurrence of one text in another, as the standard library's ReplaceAll does. */
module Replacing {

  predicate OccursAt(text: string, piece: string, i: nat) { i + |piece| <= |text| && text[i..i + |piece|] == piece }

  predicate Occurs(text: string, piece: string) { exists i :: 0 <= i <= |text| && OccursAt(text, piece, i) }

  /** From left to right, without overlaps; the empty text occurs before every character and at the end. */
  function ReplaceAll(text: string, piece: string, fill: string): string {
    if piece == "" then (if text == "" then fill else fill + [text[0]] + ReplaceAll(text[1..], piece, fill))
    else if |text| < |piece| then text
    else if piece <= text then fill + ReplaceAll(text[|piece|..], piece, fill)
    else [text[0]] + ReplaceAll(text[1..], piece, fill)
  }

  lemma OccursInTail(text: string, piece: string, from: nat)
    requires from <= |text| && Occurs(text[from..], piece)
    ensures Occurs(text, piece)
  {
    var i :| 0 <= i <= |text[from..]| && OccursAt(text[from..], piece, i);
    assert text[from..][i..i + |piece|] == text[from + i..from + i + |piece|];
    assert OccursAt(text, piece, from + i);
  }

  lemma OccursPastHead(text: string, piece: string)
    requires piece != "" && !(piece <= text) && Occurs(text, piece)
    ensures text != "" && Occurs(text[1..], piece)
  {
    var i :| 0 <= i <= |text| && OccursAt(text, piece, i);
    if i > 0 {
      assert text[1..][i - 1..i - 1 + |piece|] == text[i..i + |piece|];
      assert OccursAt(text[1..], piece, i - 1);
    }
  }

  lemma {:induction false} NothingToReplace(text: string, piece: string, fill: string)
    requires piece != "" && !Occurs(text, piece)
    ensures ReplaceAll(text, piece, fill) == text
    decreases |text|
  {
    if |text| >= |piece| {
      if piece <= text {
        assert OccursAt(text, piece, 0);
      } else {
        if Occurs(text[1..], piece) { OccursInTail(text, piece, 1); }
        NothingToReplace(text[1..], piece, fill);
      }
    }
  }

  lemma {:induction false} ReplacedByItself(text: string, piece: string)
    requires piece != ""
    ensures ReplaceAll(text, piece, piece) == text
    decreases |text|
  {
    if |text| >= |piece| {
      if piece <= text { ReplacedByItself(text[|piece|..], piece); } else { ReplacedByItself(text[1..], piece); }
    }
  }

  /** Every replacement moves the length the same way. */
  lemma {:induction false} ReplacedLength(text: string, piece: string, fill: string)
    requires piece != ""
    ensures |fill| >= |piece| ==> |ReplaceAll(text, piece, fill)| >= |text|
    ensures |fill| <= |piece| ==> |ReplaceAll(text, piece, fill)| <= |text|
    decreases |text|
  {
    if |text| >= |piece| {
      ReplacedLength(if piece <= text then text[|piece|..] else text[1..], piece, fill);
    }
  }

  lemma {:induction false} SomethingToReplace(text: string, piece: string, fill: string)
    requires piece != "" && Occurs(text, piece) && piece != fill
    ensures ReplaceAll(text, piece, fill) != text
    decreases |text|
  {
    var moved := ReplaceAll(text, piece, fill);
    if piece <= text {
      ReplacedLength(text[|piece|..], piece, fill);
      if |piece| == |fill| { assert moved[..|piece|] == fill; }
    } else {
      OccursPastHead(text, piece);
      SomethingToReplace(text[1..], piece, fill);
      assert moved[1..] == ReplaceAll(text[1..], piece, fill);
    }
  }

  /** Replacing leaves a text alone exactly when there is nothing to replace, or nothing different to put there. */
  lemma ReplacesNothing(text: string, piece: string, fill: string)
    requires piece != ""
    ensures ReplaceAll(text, piece, fill) == text <==> !Occurs(text, piece) || piece == fill
  {
    if piece == fill {
      ReplacedByItself(text, piece);
    } else if Occurs(text, piece) {
      SomethingToReplace(text, piece, fill);
    } else {
      NothingToReplace(text, piece, fill);
    }
  }

  /** A path below a folder moves with the folder exactly when the folder's own path is not met again further down. */
  lemma MovesExactly(source: string, rest: string, destination: string)
    requires source != ""
    ensures ReplaceAll(source + rest, source, destination) == destination + rest <==>
              !Occurs(rest, source) || source == destination
  {
    assert (source + rest)[|source|..] == rest;
    var moved := ReplaceAll(rest, source, destination);
    assert ReplaceAll(source + rest, source, destination) == destination + moved;
    assert (destination + moved)[|destination|..] == moved && (destination + rest)[|destination|..] == rest;
    ReplacesNothing(rest, source, destination);
  }
}
