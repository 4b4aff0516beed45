/** Pin identifiers in protocol lines (app/ui.py, `_extract_pins_from_message`
    and `PinoutView._canonical_pins_from_text`). Both scan a line with the
    pattern `P([01])[._](\d{2})` and turn each match into `P<port>_<nn>`.
    Digits are the ASCII digits. */
module Pins {

  /** Length of one match of the pattern. */
  const MATCH_LEN := 5

  predicate IsDigit(c: char) {
    '0' <= c <= '9'
  }

  /** The pattern matches `s` at position `i`. */
  predicate MatchAt(s: string, i: int) {
    && 0 <= i && i + MATCH_LEN <= |s|
    && s[i] == 'P'
    && (s[i + 1] == '0' || s[i + 1] == '1')
    && (s[i + 2] == '.' || s[i + 2] == '_')
    && IsDigit(s[i + 3]) && IsDigit(s[i + 4])
  }

  /** The canonical identifier of the match at `i`. */
  function CanonicalAt(s: string, i: int): string
    requires MatchAt(s, i)
  {
    ['P', s[i + 1], '_', s[i + 3], s[i + 4]]
  }

  /** A canonical pin identifier `P{0|1}_{dd}`. */
  predicate IsCanonicalPin(p: string) {
    |p| == 5 && p[0] == 'P' && (p[1] == '0' || p[1] == '1') && p[2] == '_' && IsDigit(p[3]) && IsDigit(p[4])
  }

  /** `re.finditer` from position `from`: try the pattern at each position;
      after a match the scan resumes right after it. */
  function FindFrom(s: string, from: nat): seq<string>
    decreases |s| - from
  {
    if from + MATCH_LEN > |s| then []
    else if MatchAt(s, from) then [CanonicalAt(s, from)] + FindFrom(s, from + MATCH_LEN)
    else FindFrom(s, from + 1)
  }

  /** `_canonical_pins_from_text`: the identifiers in the order they occur,
      repeats included. */
  function CanonicalPinsFromText(s: string): seq<string> {
    FindFrom(s, 0)
  }

  /** `_extract_pins_from_message`: the same identifiers, as a set. */
  function ExtractPins(s: string): set<string> {
    set p | p in CanonicalPinsFromText(s)
  }

  /** A match is 'P', a digit, a separator and two digits, none of which is
      'P', so two matches never overlap. */
  lemma NoOverlap(s: string, i: int, j: int)
    requires MatchAt(s, i) && i < j < i + MATCH_LEN
    ensures !MatchAt(s, j)
  {
  }

  /** The scan from `from` finds exactly the matches at positions `>= from`. */
  lemma {:induction false} FindFromExactly(s: string, from: nat, p: string)
    ensures p in FindFrom(s, from) <==> exists i :: from <= i && MatchAt(s, i) && CanonicalAt(s, i) == p
    decreases |s| - from
  {
    if from + MATCH_LEN > |s| {
    } else if MatchAt(s, from) {
      FindFromExactly(s, from + MATCH_LEN, p);
      forall i | from < i < from + MATCH_LEN ensures !MatchAt(s, i) {
        NoOverlap(s, from, i);
      }
    } else {
      FindFromExactly(s, from + 1, p);
    }
  }

  /** Pin extraction yields exactly the canonical ids of the substrings that
      match the pattern. */
  lemma ExtractPinsExactly(s: string, p: string)
    ensures p in ExtractPins(s) <==> exists i :: MatchAt(s, i) && CanonicalAt(s, i) == p
  {
    FindFromExactly(s, 0, p);
  }

  /** Everything extracted is a canonical identifier. */
  lemma ExtractedAreCanonical(s: string, p: string)
    requires p in ExtractPins(s)
    ensures IsCanonicalPin(p)
  {
    ExtractPinsExactly(s, p);
  }

  /** The separator does not matter: writing `_` instead of `.` at a match
      leaves the extracted set unchanged (`P0.06` and `P0_06` give the same id). */
  lemma SeparatorIrrelevant(s: string, i: int)
    requires MatchAt(s, i) && s[i + 2] == '.'
    ensures ExtractPins(s[i + 2 := '_']) == ExtractPins(s)
  {
    var t := s[i + 2 := '_'];
    assert forall j :: MatchAt(s, j) <==> MatchAt(t, j);
    assert forall j :: MatchAt(s, j) ==> CanonicalAt(s, j) == CanonicalAt(t, j);
    forall p ensures p in ExtractPins(t) <==> p in ExtractPins(s) {
      ExtractPinsExactly(s, p);
      ExtractPinsExactly(t, p);
    }
  }

  /** Extraction of a pin id placed between text that cannot form a match
      with it: the id is found. */
  lemma FoundAt(s: string, i: int)
    requires MatchAt(s, i)
    ensures CanonicalAt(s, i) in ExtractPins(s)
  {
    ExtractPinsExactly(s, CanonicalAt(s, i));
  }
}
