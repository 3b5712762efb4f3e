/**
 * The attribute pattern of the M3U parser, `([^=\s]+)\=["']([^"']+)`, as
 * `Regex.Matches` applies it to one line: the leftmost match, then the leftmost
 * match from where that one ended, and so on.
 *
 * At a start position p the pattern can only succeed one way: group 1 is the
 * whole run of characters that are neither `=` nor white space (a shorter run
 * would have to be followed by `=`, which the run excludes), then `=`, one
 * quote of either kind, and group 2 is the whole run (at least one) of
 * characters that are not quotes.
 */
module AttributePattern {
  import opened Wrappers
  import opened Platform

  /** One match: group 1, group 2, and the span [start, end) it covers. */
  datatype Match = Match(key: string, value: string, start: nat, end: nat)

  predicate IsQuote(c: char) {
    c == '"' || c == '\''
  }

  /** `[^=\s]` */
  predicate IsKeyChar(c: char) {
    c != '=' && !IsWhiteSpace(c)
  }

  /** End of the maximal run of key characters starting at i. */
  function KeyRunEnd(s: string, i: nat): (k: nat)
    requires i <= |s|
    ensures i <= k <= |s|
    ensures forall j :: i <= j < k ==> IsKeyChar(s[j])
    ensures k == |s| || !IsKeyChar(s[k])
    decreases |s| - i
  {
    if i < |s| && IsKeyChar(s[i]) then KeyRunEnd(s, i + 1) else i
  }

  /** End of the maximal run of non-quote characters starting at i. */
  function ValueRunEnd(s: string, i: nat): (k: nat)
    requires i <= |s|
    ensures i <= k <= |s|
    ensures forall j :: i <= j < k ==> !IsQuote(s[j])
    ensures k == |s| || IsQuote(s[k])
    decreases |s| - i
  {
    if i < |s| && !IsQuote(s[i]) then ValueRunEnd(s, i + 1) else i
  }

  /** What a match found in line s must look like. */
  predicate WellFormed(s: string, m: Match) {
    && m.key != [] && m.value != []
    && m.start + |m.key| + 2 + |m.value| == m.end <= |s|
    && s[m.start..m.start + |m.key|] == m.key
    && s[m.start + |m.key|] == '='
    && IsQuote(s[m.start + |m.key| + 1])
    && s[m.start + |m.key| + 2..m.end] == m.value
    && (forall j :: 0 <= j < |m.key| ==> IsKeyChar(m.key[j]))
    && (forall j :: 0 <= j < |m.value| ==> !IsQuote(m.value[j]))
    && (m.start + |m.key| == |s| || !IsKeyChar(s[m.start + |m.key|]))
    && (m.end == |s| || IsQuote(s[m.end]))
  }

  /** The match that starts exactly at p, if any. */
  function MatchAt(s: string, p: nat): (r: Option<Match>)
    requires p <= |s|
    ensures r.Some? ==> r.value.start == p && WellFormed(s, r.value)
  {
    var k := KeyRunEnd(s, p);
    if p < k && k + 2 < |s| && s[k] == '=' && IsQuote(s[k + 1]) && !IsQuote(s[k + 2]) then
      var e := ValueRunEnd(s, k + 2);
      Some(Match(s[p..k], s[k + 2..e], p, e))
    else
      None
  }

  /** The successive leftmost matches from position `from` on. */
  function MatchesFrom(s: string, from: nat): seq<Match>
    requires from <= |s|
    decreases |s| - from
  {
    if from == |s| then []
    else
      match MatchAt(s, from)
      case Some(m) => [m] + MatchesFrom(s, m.end)
      case None => MatchesFrom(s, from + 1)
  }

  /** `Regex.Matches(line)` for the attribute pattern. */
  function Matches(line: string): seq<Match> {
    MatchesFrom(line, 0)
  }

  /** Every match found from `from` on is the match the pattern makes at its own start, at or after `from`. */
  lemma {:induction false} MatchesFromAreMatches(s: string, from: nat)
    requires from <= |s|
    ensures forall m :: m in MatchesFrom(s, from) ==>
      from <= m.start <= |s| && MatchAt(s, m.start) == Some(m)
    decreases |s| - from
  {
    if from < |s| {
      match MatchAt(s, from)
      case Some(m) =>
        MatchesFromAreMatches(s, m.end);
        assert MatchesFrom(s, from) == [m] + MatchesFrom(s, m.end);
      case None =>
        MatchesFromAreMatches(s, from + 1);
    }
  }

  /** The matches do not overlap and come in line order. */
  lemma {:induction false} MatchesFromOrdered(s: string, from: nat)
    requires from <= |s|
    ensures forall i :: 0 <= i < |MatchesFrom(s, from)| ==>
      from <= MatchesFrom(s, from)[i].start < MatchesFrom(s, from)[i].end
    ensures forall i :: 0 < i < |MatchesFrom(s, from)| ==>
      MatchesFrom(s, from)[i - 1].end <= MatchesFrom(s, from)[i].start
    decreases |s| - from
  {
    if from < |s| {
      var r := MatchAt(s, from);
      if r.Some? {
        var m := r.value;
        assert m.start < m.end;
        MatchesFromOrdered(s, m.end);
        var rest := MatchesFrom(s, m.end);
        var ms := [m] + rest;
        assert MatchesFrom(s, from) == ms;
        forall i | 0 < i < |ms| ensures ms[i] == rest[i - 1] && ms[i - 1].end <= ms[i].start {
          if i > 1 { assert ms[i - 1] == rest[i - 2]; }
        }
      } else {
        MatchesFromOrdered(s, from + 1);
        assert MatchesFrom(s, from) == MatchesFrom(s, from + 1);
      }
    }
  }

  /**
   * The first match is the leftmost position at or after `from` where the
   * pattern succeeds; when there is no match, the pattern succeeds nowhere.
   */
  lemma {:induction false} MatchesFromLeftmost(s: string, from: nat)
    requires from <= |s|
    ensures var ms := MatchesFrom(s, from);
      && (ms == [] ==> forall p :: from <= p <= |s| ==> MatchAt(s, p).None?)
      && (ms != [] ==> ms[0].start <= |s| && MatchAt(s, ms[0].start) == Some(ms[0]))
      && (ms != [] ==> forall p :: from <= p < ms[0].start ==> MatchAt(s, p).None?)
    decreases |s| - from
  {
    if from < |s| && MatchAt(s, from).None? {
      MatchesFromLeftmost(s, from + 1);
    }
  }

  /** Keys are non-empty runs free of `=` and white space; values are non-empty runs free of quotes. */
  lemma MatchesWellFormed(line: string)
    ensures forall m :: m in Matches(line) ==>
      && m.key != [] && (forall j :: 0 <= j < |m.key| ==> m.key[j] != '=' && !IsWhiteSpace(m.key[j]))
      && m.value != [] && (forall j :: 0 <= j < |m.value| ==> m.value[j] != '"' && m.value[j] != '\'')
  {
    MatchesFromAreMatches(line, 0);
  }

  /**
   * A key is the whole run before its `=`: the first match of a line starts at
   * the beginning of the line or right after a character that cannot be part
   * of a key. (So in `#EXTINF:-1,tvg-name="X"` the key is
   * `#EXTINF:-1,tvg-name`, and the line has no `tvg-name` attribute.)
   */
  lemma FirstKeyIsWholeRun(line: string)
    requires Matches(line) != []
    ensures var m := Matches(line)[0];
      m.start < |line| && (m.start == 0 || !IsKeyChar(line[m.start - 1]))
  {
    MatchesFromLeftmost(line, 0);
    var m := Matches(line)[0];
    assert WellFormed(line, m);
    if m.start > 0 {
      var p := m.start - 1;
      assert MatchAt(line, p).None?;
    }
  }
}
