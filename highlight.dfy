/** `BlogService.highlightText`: `text.replace(new RegExp('(' + query + ')', 'gi'),
    '<mark>$1</mark>')`, for a query read as a literal string. The scan finds
    the leftmost case-insensitive occurrences, left to right and without
    overlap; an empty query matches the empty string at every position. The
    result is built as a sequence of pieces so that what was marked and what
    was left alone can be stated separately from the rendering. */
module Highlight {
  import opened Text

  /** A character copied as it is, or an occurrence of the query to wrap in `<mark>`. */
  datatype Piece = Plain(c: char) | Marked(text: string)

  /** What the empty pattern `()` does: an empty mark before every character and at the end. */
  function EmptyMarks(text: string): (r: seq<Piece>)
  {
    if |text| == 0 then [Marked("")]
    else [Marked(""), Plain(text[0])] + EmptyMarks(text[1..])
  }

  /** The query occurs, ignoring case, at the start of the text. */
  predicate MatchesHere(text: string, query: string)
  {
    |query| <= |text| && Lower(text[..|query|]) == Lower(query)
  }

  /** The matches of a global, case-insensitive search for `query` in `text`. */
  function Pieces(text: string, query: string): (r: seq<Piece>)
    decreases |text|
  {
    if |query| == 0 then EmptyMarks(text)
    else if |text| == 0 then []
    else if MatchesHere(text, query) then
      [Marked(text[..|query|])] + Pieces(text[|query|..], query)
    else
      [Plain(text[0])] + Pieces(text[1..], query)
  }

  /** The text the pieces were cut from. */
  function Unmarked(ps: seq<Piece>): (r: string)
  {
    if ps == [] then ""
    else (match ps[0] case Plain(c) => [c] case Marked(t) => t) + Unmarked(ps[1..])
  }

  /** The pieces written out, each occurrence wrapped as `<mark>$1</mark>`. */
  function Render(ps: seq<Piece>): (r: string)
  {
    if ps == [] then ""
    else (match ps[0] case Plain(c) => [c] case Marked(t) => "<mark>" + t + "</mark>") + Render(ps[1..])
  }

  /** `highlightText(text, query)`. */
  function HighlightText(text: string, query: string): (r: string)
  {
    Render(Pieces(text, query))
  }

  lemma {:induction false} UnmarkedAppend(a: seq<Piece>, b: seq<Piece>)
    ensures Unmarked(a + b) == Unmarked(a) + Unmarked(b)
  {
    if a != [] {
      assert (a + b)[1..] == a[1..] + b;
      UnmarkedAppend(a[1..], b);
    } else {
      assert a + b == b;
    }
  }

  lemma {:induction false} EmptyMarksSpellText(text: string)
    ensures Unmarked(EmptyMarks(text)) == text
  {
    if |text| > 0 {
      EmptyMarksSpellText(text[1..]);
      UnmarkedAppend([Marked(""), Plain(text[0])], EmptyMarks(text[1..]));
      assert text == [text[0]] + text[1..];
    }
  }

  /** Highlighting only inserts marks: removing them gives back the text. */
  lemma {:induction false} PiecesSpellText(text: string, query: string)
    ensures Unmarked(Pieces(text, query)) == text
    decreases |text|
  {
    if |query| == 0 {
      EmptyMarksSpellText(text);
    } else if |text| == 0 {
    } else if MatchesHere(text, query) {
      var head, tail := text[..|query|], text[|query|..];
      var rest := Pieces(tail, query);
      assert Pieces(text, query) == [Marked(head)] + rest;
      PiecesSpellText(tail, query);
      UnmarkedAppend([Marked(head)], rest);
      assert Unmarked([Marked(head)]) == head;
      assert text == head + tail;
    } else {
      var rest := Pieces(text[1..], query);
      assert Pieces(text, query) == [Plain(text[0])] + rest;
      PiecesSpellText(text[1..], query);
      UnmarkedAppend([Plain(text[0])], rest);
      assert Unmarked([Plain(text[0])]) == [text[0]];
      assert text == [text[0]] + text[1..];
    }
  }

  lemma {:induction false} EmptyMarksAreEmpty(text: string)
    ensures forall i :: 0 <= i < |EmptyMarks(text)| && EmptyMarks(text)[i].Marked? ==> EmptyMarks(text)[i].text == ""
  {
    if |text| > 0 {
      EmptyMarksAreEmpty(text[1..]);
    }
  }

  /** Every marked piece is an occurrence of the query, up to case. */
  lemma {:induction false} MarkedPiecesMatchQuery(text: string, query: string)
    ensures forall i :: 0 <= i < |Pieces(text, query)| && Pieces(text, query)[i].Marked? ==>
      Lower(Pieces(text, query)[i].text) == Lower(query)
    decreases |text|
  {
    if |query| == 0 {
      EmptyMarksAreEmpty(text);
    } else if |text| == 0 {
    } else if |query| <= |text| && Lower(text[..|query|]) == Lower(query) {
      MarkedPiecesMatchQuery(text[|query|..], query);
    } else {
      MarkedPiecesMatchQuery(text[1..], query);
    }
  }

  /** A text that does not contain the query does not start with it. */
  lemma NoOccurrenceNotHere(text: string, query: string)
    requires !ContainsIgnoringCase(text, query)
    ensures !MatchesHere(text, query)
  {
    if MatchesHere(text, query) {
      OccurrenceHere(text, query);
      assert false;
    }
  }

  /** A text that starts with the query contains it. */
  lemma OccurrenceHere(text: string, query: string)
    requires MatchesHere(text, query)
    ensures ContainsIgnoringCase(text, query)
  {
    LowerSlice(text, 0, |query|);
    assert OccursAt(Lower(text), Lower(query), 0);
  }

  /** A text whose tail contains the query contains it. */
  lemma OccurrenceFromTail(text: string, query: string)
    requires |text| > 0 && ContainsIgnoringCase(text[1..], query)
    ensures ContainsIgnoringCase(text, query)
  {
    var i :| 0 <= i <= |Lower(text[1..])| - |Lower(query)| && OccursAt(Lower(text[1..]), Lower(query), i);
    LowerSlice(text, 1, |text|);
    assert Lower(text[1..])[i..i + |query|] == Lower(text)[i + 1..i + 1 + |query|];
    assert OccursAt(Lower(text), Lower(query), i + 1);
  }

  /** A text that does not contain the query has a tail that does not either. */
  lemma NoOccurrenceInTail(text: string, query: string)
    requires |text| > 0 && !ContainsIgnoringCase(text, query)
    ensures !ContainsIgnoringCase(text[1..], query)
  {
    if ContainsIgnoringCase(text[1..], query) {
      OccurrenceFromTail(text, query);
      assert false;
    }
  }

  /** A text with no occurrence of a non-empty query comes back unchanged. */
  lemma {:induction false} NoOccurrenceNoChange(text: string, query: string)
    requires |query| > 0 && !ContainsIgnoringCase(text, query)
    ensures HighlightText(text, query) == text
    decreases |text|
  {
    if |text| > 0 {
      NoOccurrenceNotHere(text, query);
      NoOccurrenceInTail(text, query);
      NoOccurrenceNoChange(text[1..], query);
      assert text == [text[0]] + text[1..];
    }
  }

  /** The scan never passes over an occurrence: no character copied as it is
      starts an occurrence of the query in the text that remains from it. So
      every occurrence that is not inside an earlier mark is marked, leftmost
      first. */
  lemma {:induction false} PlainPiecesStartNoMatch(text: string, query: string)
    requires |query| > 0
    ensures forall i :: 0 <= i < |Pieces(text, query)| && Pieces(text, query)[i].Plain? ==>
      !MatchesHere(Unmarked(Pieces(text, query)[i..]), query)
    decreases |text|
  {
    var ps := Pieces(text, query);
    if |text| == 0 {
    } else if MatchesHere(text, query) {
      var rest := Pieces(text[|query|..], query);
      PlainPiecesStartNoMatch(text[|query|..], query);
      assert ps == [Marked(text[..|query|])] + rest;
      forall i | 0 <= i < |ps| && ps[i].Plain?
        ensures !MatchesHere(Unmarked(ps[i..]), query)
      {
        assert ps[i..] == rest[i - 1..];
      }
    } else {
      var rest := Pieces(text[1..], query);
      PlainPiecesStartNoMatch(text[1..], query);
      assert ps == [Plain(text[0])] + rest;
      forall i | 0 <= i < |ps| && ps[i].Plain?
        ensures !MatchesHere(Unmarked(ps[i..]), query)
      {
        if i == 0 {
          assert ps[i..] == ps;
          PiecesSpellText(text, query);
        } else {
          assert ps[i..] == rest[i - 1..];
        }
      }
    }
  }

  /** An occurrence at the very start of the lowered text is a match here. */
  lemma OccursAtStart(text: string, query: string)
    requires OccursAt(Lower(text), Lower(query), 0)
    ensures MatchesHere(text, query)
  {
    LowerSlice(text, 0, |query|);
  }

  /** An occurrence after the first character is an occurrence in the tail. */
  lemma OccursAtShift(text: string, query: string, i: int)
    requires 1 <= i && OccursAt(Lower(text), Lower(query), i)
    ensures ContainsIgnoringCase(text[1..], query)
  {
    LowerSlice(text, 1, |text|);
    assert Lower(text[1..])[i - 1..i - 1 + |query|] == Lower(text)[i..i + |query|];
    assert OccursAt(Lower(text[1..]), Lower(query), i - 1);
  }

  /** An occurrence that does not start a text lies in its tail. */
  lemma OccurrenceInTail(text: string, query: string)
    requires ContainsIgnoringCase(text, query) && !MatchesHere(text, query)
    ensures |text| > 0 && ContainsIgnoringCase(text[1..], query)
  {
    var i :| 0 <= i <= |Lower(text)| - |Lower(query)| && OccursAt(Lower(text), Lower(query), i);
    if i == 0 {
      OccursAtStart(text, query);
      assert false;
    }
    OccursAtShift(text, query, i);
  }

  /** A text that contains a non-empty query gets at least one mark. */
  lemma {:induction false} OccurrenceIsMarked(text: string, query: string)
    requires |query| > 0 && ContainsIgnoringCase(text, query)
    ensures exists i :: 0 <= i < |Pieces(text, query)| && Pieces(text, query)[i].Marked?
    decreases |text|
  {
    var ps := Pieces(text, query);
    if MatchesHere(text, query) {
      assert ps[0].Marked?;
    } else {
      OccurrenceInTail(text, query);
      OccurrenceIsMarked(text[1..], query);
      var rest := Pieces(text[1..], query);
      assert ps == [Plain(text[0])] + rest;
      var j :| 0 <= j < |rest| && rest[j].Marked?;
      assert ps[j + 1].Marked?;
    }
  }
}
