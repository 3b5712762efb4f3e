/**
 * `M3UParser`: turns the lines of a remote extended-M3U playlist into media
 * entries. A line that starts with `#EXTINF` (the tag of section 4.3.2.1 of
 * RFC 8216) carries `key="value"` attributes in the informal IPTV style; the
 * entry needs a `tvg-name` attribute and takes the line right after it as
 * its stream URL.
 *
 * Both code generations have the same attribute extraction and the same line
 * loop, so one model serves both. The stream is the sequence of lines it
 * yields; the reader is a cursor into it.
 */
module M3UParser {
  import opened Wrappers
  import opened Platform
  import opened AttributePattern
  import opened ProjectMedia

  /** The exception a parse can end in: `Dictionary.Add` met a key a second time. */
  datatype ParseError = DuplicateKey(key: string)

  type Attributes = map<string, string>

  /**
   * The dictionary filled from the matches in order, or the error of the first
   * match whose key is already in it.
   */
  function AttributesOf(ms: seq<Match>): (r: Result<Attributes, ParseError>)
    decreases |ms|
  {
    if ms == [] then Ok(map[])
    else
      match AttributesOf(ms[..|ms| - 1])
      case Err(e) => Err(e)
      case Ok(d) =>
        var m := ms[|ms| - 1];
        if m.key in d then Err(DuplicateKey(m.key)) else Ok(d[m.key := m.value])
  }

  /** Once the dictionary has failed on a prefix, the later matches do not matter. */
  lemma {:induction false} AttributesOfErrSticky(ms: seq<Match>, n: nat)
    requires n <= |ms| && AttributesOf(ms[..n]).Err?
    ensures AttributesOf(ms) == AttributesOf(ms[..n])
    decreases |ms| - n
  {
    if n < |ms| {
      assert ms[..n + 1][..n] == ms[..n];
      AttributesOfErrSticky(ms, n + 1);
    } else {
      assert ms[..n] == ms;
    }
  }

  /** No two matches share a key. */
  predicate DistinctKeys(ms: seq<Match>) {
    forall i, j :: 0 <= i < j < |ms| ==> ms[i].key != ms[j].key
  }

  /**
   * The dictionary exists exactly when the keys are distinct; it then maps
   * each key to its value and has no other keys. Otherwise the error names a
   * key that occurs twice, the second time at the first repeat.
   */
  lemma {:induction false} AttributesOfSpec(ms: seq<Match>)
    ensures AttributesOf(ms).Ok? <==> DistinctKeys(ms)
    ensures AttributesOf(ms).Ok? ==>
      && (forall k :: k in AttributesOf(ms).value <==> exists i :: 0 <= i < |ms| && ms[i].key == k)
      && (forall i :: 0 <= i < |ms| ==> AttributesOf(ms).value[ms[i].key] == ms[i].value)
    ensures AttributesOf(ms).Err? ==> exists i, j :: 0 <= i < j < |ms| && ms[i].key == ms[j].key == AttributesOf(ms).error.key
  {
    if ms != [] {
      var init := ms[..|ms| - 1];
      var m := ms[|ms| - 1];
      AttributesOfSpec(init);
      assert forall i :: 0 <= i < |init| ==> init[i] == ms[i];
      match AttributesOf(init)
      case Err(e) =>
        assert !DistinctKeys(init);
      case Ok(d) =>
        if m.key in d {
          var i :| 0 <= i < |init| && init[i].key == m.key;
          assert ms[i].key == ms[|ms| - 1].key;
        } else {
          assert DistinctKeys(ms);
          var d' := d[m.key := m.value];
          forall k ensures k in d' <==> exists i :: 0 <= i < |ms| && ms[i].key == k {
            if k in d' && k != m.key {
              var i :| 0 <= i < |init| && init[i].key == k;
              assert ms[i].key == k;
            }
            if k == m.key {
              assert ms[|ms| - 1].key == k;
            }
          }
        }
    }
  }

  /**
   * `ParseAttributes(line)`: the attribute dictionary of a line, empty when
   * the pattern finds nothing; a key that occurs twice makes `Dictionary.Add`
   * throw.
   */
  method ParseAttributes(line: string) returns (r: Result<Attributes, ParseError>)
    ensures r == AttributesOf(Matches(line))
    ensures Matches(line) == [] ==> r == Ok(map[])
  {
    var attributeMatches := Matches(line);
    if |attributeMatches| == 0 {
      return Ok(map[]);
    }
    assert attributeMatches[..0] == [];
    var attributes: Attributes := map[];
    var i := 0;
    while i < |attributeMatches|
      invariant 0 <= i <= |attributeMatches|
      invariant AttributesOf(attributeMatches[..i]) == Ok(attributes)
    {
      var attribute := attributeMatches[i];
      assert attributeMatches[..i + 1][..i] == attributeMatches[..i];
      if attribute.key in attributes {
        AttributesOfErrSticky(attributeMatches, i + 1);
        return Err(DuplicateKey(attribute.key));
      }
      attributes := attributes[attribute.key := attribute.value];
      i := i + 1;
    }
    assert attributeMatches[..i] == attributeMatches;
    return Ok(attributes);
  }

  /**
   * What a dictionary of a line holds: keys are non-empty and free of `=` and
   * white space; values are non-empty and free of quotes (so
   * `tvg-name="Ocean's 11"` gives "Ocean").
   */
  lemma AttributeShape(line: string)
    requires AttributesOf(Matches(line)).Ok?
    ensures var d := AttributesOf(Matches(line)).value;
      forall k :: k in d ==>
        && k != [] && (forall j :: 0 <= j < |k| ==> k[j] != '=' && !IsWhiteSpace(k[j]))
        && d[k] != [] && (forall j :: 0 <= j < |d[k]| ==> d[k][j] != '"' && d[k][j] != '\'')
  {
    var ms := Matches(line);
    AttributesOfSpec(ms);
    MatchesWellFormed(line);
    var d := AttributesOf(ms).value;
    forall k | k in d
      ensures k != [] && (forall j :: 0 <= j < |k| ==> k[j] != '=' && !IsWhiteSpace(k[j]))
      ensures d[k] != [] && (forall j :: 0 <= j < |d[k]| ==> d[k][j] != '"' && d[k][j] != '\'')
    {
      var i :| 0 <= i < |ms| && ms[i].key == k;
      assert ms[i] in ms;
    }
  }

  /** `line.IndexOf("#EXTINF") == 0`, taken as an ordinal prefix test. */
  predicate IsExtInf(line: string) {
    StartsWith(line, "#EXTINF")
  }

  /** The entry an `#EXTINF` line with a `tvg-name` attribute and an absolute stream URL produces. */
  function Entry(attrs: Attributes, streamUrl: string, playlistId: Guid, host: Host): (m: Media)
    requires "tvg-name" in attrs
    ensures m.name == Trim(attrs["tvg-name"]) && m.url == streamUrl && m.playlistId == playlistId
    ensures "tvg-logo" in attrs ==> m.image == host.absoluteUri(attrs["tvg-logo"])
    ensures "tvg-logo" !in attrs ==> m.image == None
  {
    var imageUrl := if "tvg-logo" in attrs then host.absoluteUri(attrs["tvg-logo"]) else None;
    Media(Trim(attrs["tvg-name"]), imageUrl, streamUrl, playlistId)
  }

  /** The line `ReadLine` returns at cursor k: null at the end of the stream. */
  function ReadLine(lines: seq<string>, k: nat): Option<string> {
    if k < |lines| then Some(lines[k]) else None
  }

  /** `Uri.TryCreate(s, UriKind.Absolute, out u)` on a possibly null string, giving `u.ToString()`. */
  function TryCreateAbsolute(host: Host, s: Option<string>): Option<string> {
    if s.None? then None else host.absoluteUri(s.value)
  }

  /** How the loop turns one tag line into its dictionary. */
  type LineParser = string -> Result<Attributes, ParseError>

  /** The dictionary `ParseAttributes` builds for a line. */
  function LineAttributes(line: string): Result<Attributes, ParseError> {
    AttributesOf(Matches(line))
  }

  /** What the loop does at one line: stop on an exception, or move the cursor on, perhaps with an entry. */
  datatype Step = Stop(error: ParseError) | Advance(next: nat, entry: Option<Media>)

  /**
   * One turn of the reader loop at cursor k. A line without the tag, or a tag
   * line whose dictionary is empty or lacks `tvg-name`, moves the cursor by
   * one. Otherwise the loop reads one more line, the stream URL, whatever it
   * holds, and produces an entry when that line is an absolute URL.
   */
  function StepAt(lines: seq<string>, k: nat, playlistId: Guid, host: Host, parse: LineParser): (s: Step)
    requires k < |lines|
    ensures s.Advance? ==> k < s.next <= |lines|
  {
    if !IsExtInf(lines[k]) then Advance(k + 1, None)
    else
      match parse(lines[k])
      case Err(e) => Stop(e)
      case Ok(attrs) =>
        if |attrs| == 0 || "tvg-name" !in attrs then Advance(k + 1, None)
        else
          var streamUrl := TryCreateAbsolute(host, ReadLine(lines, k + 1));
          var next := if k + 1 < |lines| then k + 2 else k + 1;
          if streamUrl.None? then Advance(next, None)
          else Advance(next, Some(Entry(attrs, streamUrl.value, playlistId, host)))
  }

  /** The entries the reader loop collects from cursor k to the end of the stream. */
  function Scan(lines: seq<string>, k: nat, playlistId: Guid, host: Host, parse: LineParser): Result<seq<Media>, ParseError>
    requires k <= |lines|
    decreases |lines| - k
  {
    if k == |lines| then Ok([])
    else
      match StepAt(lines, k, playlistId, host, parse)
      case Stop(e) => Err(e)
      case Advance(next, entry) =>
        var rest := Scan(lines, next, playlistId, host, parse);
        if entry.None? then rest else Prepend(entry.value, rest)
  }

  function Prepend(m: Media, r: Result<seq<Media>, ParseError>): Result<seq<Media>, ParseError> {
    if r.Ok? then Ok([m] + r.value) else r
  }

  function PrependAll(ms: seq<Media>, r: Result<seq<Media>, ParseError>): Result<seq<Media>, ParseError> {
    if r.Ok? then Ok(ms + r.value) else r
  }

  /** `Scan` at a cursor before the end: the step taken there, then the rest. */
  lemma ScanAt(lines: seq<string>, k: nat, playlistId: Guid, host: Host, parse: LineParser)
    requires k < |lines|
    ensures var s := StepAt(lines, k, playlistId, host, parse);
      && (s.Stop? ==> Scan(lines, k, playlistId, host, parse) == Err(s.error))
      && (s.Advance? && s.entry.None? ==> Scan(lines, k, playlistId, host, parse) == Scan(lines, s.next, playlistId, host, parse))
      && (s.Advance? && s.entry.Some? && Scan(lines, s.next, playlistId, host, parse).Ok? ==>
            Scan(lines, k, playlistId, host, parse) == Ok([s.entry.value] + Scan(lines, s.next, playlistId, host, parse).value))
      && (s.Advance? && s.entry.Some? && Scan(lines, s.next, playlistId, host, parse).Err? ==>
            Scan(lines, k, playlistId, host, parse) == Scan(lines, s.next, playlistId, host, parse))
  {
  }

  lemma ScanAtEnd(lines: seq<string>, playlistId: Guid, host: Host, parse: LineParser)
    ensures Scan(lines, |lines|, playlistId, host, parse) == Ok([])
  {
  }

  /**
   * The line loop of `GetMediaItems(playlist)` over the fetched lines: the
   * entries in input order, or the exception a duplicate attribute key
   * raised (nothing in the loop catches it).
   */
  method GetMediaItems(lines: seq<string>, playlistId: Guid, host: Host) returns (r: Result<seq<Media>, ParseError>)
    ensures r == Scan(lines, 0, playlistId, host, LineAttributes)
  {
    var items: seq<Media> := [];
    var cursor := 0;
    ghost var total := Scan(lines, 0, playlistId, host, LineAttributes);
    if total.Ok? {
      assert [] + total.value == total.value;
    }
    ScanAtEnd(lines, playlistId, host, LineAttributes);
    hide Scan, StepAt, Entry, Trim, AttributesOf, Matches;
    while cursor < |lines|
      invariant cursor <= |lines|
      invariant total == PrependAll(items, Scan(lines, cursor, playlistId, host, LineAttributes))
      decreases |lines| - cursor
    {
      ghost var at := cursor;
      ScanStep(lines, at, playlistId, host, LineAttributes);
      var line := lines[cursor];
      cursor := cursor + 1;
      if !StartsWith(line, "#EXTINF") {
        continue;
      }
      var attributes := ParseAttributes(line);
      assert attributes == LineAttributes(line);
      if attributes.Err? {
        return Err(attributes.error);
      }
      var attrs := attributes.value;
      if |attrs| == 0 || "tvg-name" !in attrs {
        continue;
      }
      var nextLine: Option<string> := None;
      if cursor < |lines| {
        nextLine := Some(lines[cursor]);
        cursor := cursor + 1;
      }
      var streamUrl := TryCreateAbsolute(host, nextLine);
      if streamUrl.None? {
        continue;
      }
      var media := Entry(attrs, streamUrl.value, playlistId, host);
      ghost var rest := Scan(lines, cursor, playlistId, host, LineAttributes);
      if rest.Ok? {
        assert items + ([media] + rest.value) == (items + [media]) + rest.value;
      }
      items := items + [media];
    }
    assert items + [] == items;
    return Ok(items);
  }

  /** Line i is an `#EXTINF` line with a `tvg-name`, and the next line is an absolute URL that entry m comes from. */
  predicate EntryFrom(lines: seq<string>, i: nat, m: Media, playlistId: Guid, host: Host, parse: LineParser) {
    && i + 1 < |lines|
    && IsExtInf(lines[i])
    && parse(lines[i]).Ok?
    && "tvg-name" in parse(lines[i]).value
    && host.absoluteUri(lines[i + 1]).Some?
    && m == Entry(parse(lines[i]).value, host.absoluteUri(lines[i + 1]).value, playlistId, host)
  }

  /** A step that yields an entry consumed the tag line and the URL line after it. */
  lemma StepEntry(lines: seq<string>, k: nat, playlistId: Guid, host: Host, parse: LineParser)
    requires k < |lines|
    ensures var s := StepAt(lines, k, playlistId, host, parse);
      s.Advance? && s.entry.Some? ==> s.next == k + 2 && EntryFrom(lines, k, s.entry.value, playlistId, host, parse)
  {
  }

  /**
   * `idx` names, for each entry of `ms`, the tag line at or after k it comes
   * from; the source lines appear in input order, and the URL line of one
   * entry is never the tag line of the next.
   */
  predicate SourcedFrom(lines: seq<string>, k: nat, idx: seq<nat>, ms: seq<Media>, playlistId: Guid, host: Host, parse: LineParser) {
    && |idx| == |ms|
    && (forall j :: 0 <= j < |idx| ==> k <= idx[j] && EntryFrom(lines, idx[j], ms[j], playlistId, host, parse))
    && (forall j :: 0 < j < |idx| ==> idx[j - 1] + 1 < idx[j])
  }

  lemma SourcedFromLater(lines: seq<string>, k: nat, n: nat, idx: seq<nat>, ms: seq<Media>, playlistId: Guid, host: Host, parse: LineParser)
    requires k <= n && SourcedFrom(lines, n, idx, ms, playlistId, host, parse)
    ensures SourcedFrom(lines, k, idx, ms, playlistId, host, parse)
  {
  }

  lemma SourcedFromCons(lines: seq<string>, k: nat, m: Media, idx: seq<nat>, ms: seq<Media>, playlistId: Guid, host: Host, parse: LineParser)
    requires EntryFrom(lines, k, m, playlistId, host, parse)
    requires SourcedFrom(lines, k + 2, idx, ms, playlistId, host, parse)
    ensures SourcedFrom(lines, k, [k] + idx, [m] + ms, playlistId, host, parse)
  {
    hide EntryFrom;
    var idx' := [k] + idx;
    var ms' := [m] + ms;
    forall j | 0 < j < |idx'|
      ensures k <= idx'[j] && EntryFrom(lines, idx'[j], ms'[j], playlistId, host, parse)
      ensures idx'[j - 1] + 1 < idx'[j]
    {
      assert idx'[j] == idx[j - 1] && ms'[j] == ms[j - 1];
      if j > 1 {
        assert idx'[j - 1] == idx[j - 2];
      }
    }
  }

  /** Every entry the loop yields comes from an `#EXTINF` line carrying `tvg-name` whose next line is an absolute URL. */
  lemma {:induction false} ScanSources(lines: seq<string>, k: nat, playlistId: Guid, host: Host, parse: LineParser) returns (idx: seq<nat>)
    requires k <= |lines|
    requires Scan(lines, k, playlistId, host, parse).Ok?
    ensures SourcedFrom(lines, k, idx, Scan(lines, k, playlistId, host, parse).value, playlistId, host, parse)
    decreases |lines| - k
  {
    if k == |lines| {
      idx := [];
    } else {
      ScanAt(lines, k, playlistId, host, parse);
      StepEntry(lines, k, playlistId, host, parse);
      hide *;
      var s := StepAt(lines, k, playlistId, host, parse);
      var rest := ScanSources(lines, s.next, playlistId, host, parse);
      var ms' := Scan(lines, s.next, playlistId, host, parse).value;
      if s.entry.None? {
        idx := rest;
        SourcedFromLater(lines, k, s.next, rest, ms', playlistId, host, parse);
      } else {
        idx := [k] + rest;
        SourcedFromCons(lines, k, s.entry.value, rest, ms', playlistId, host, parse);
      }
    }
  }

  /** Lines without the `#EXTINF` tag produce nothing: a stream with none of them yields no entries. */
  lemma {:induction false} NoExtInfNoEntries(lines: seq<string>, k: nat, playlistId: Guid, host: Host, parse: LineParser)
    requires k <= |lines|
    requires forall i :: k <= i < |lines| ==> !IsExtInf(lines[i])
    ensures Scan(lines, k, playlistId, host, parse) == Ok([])
    decreases |lines| - k
  {
    if k < |lines| {
      assert StepAt(lines, k, playlistId, host, parse) == Advance(k + 1, None);
      NoExtInfNoEntries(lines, k + 1, playlistId, host, parse);
    }
  }

  /**
   * How the cursor moves at one line. A line without the tag, or a tag line
   * whose dictionary lacks `tvg-name`, leaves the next line to be examined in
   * its own right. A tag line with `tvg-name` consumes the next line (blank or
   * not) as its URL and yields an entry exactly when that URL is absolute. A
   * tag line with `tvg-name` at the end of the stream yields nothing. A
   * duplicate key stops the parse.
   */
  lemma ScanStep(lines: seq<string>, k: nat, playlistId: Guid, host: Host, parse: LineParser)
    requires k < |lines|
    ensures !IsExtInf(lines[k]) ==> Scan(lines, k, playlistId, host, parse) == Scan(lines, k + 1, playlistId, host, parse)
    ensures IsExtInf(lines[k]) && parse(lines[k]).Err? ==>
      Scan(lines, k, playlistId, host, parse) == Err(parse(lines[k]).error)
    ensures IsExtInf(lines[k]) && parse(lines[k]).Ok? && "tvg-name" !in parse(lines[k]).value ==>
      Scan(lines, k, playlistId, host, parse) == Scan(lines, k + 1, playlistId, host, parse)
    ensures IsExtInf(lines[k]) && parse(lines[k]).Ok? && "tvg-name" in parse(lines[k]).value ==>
      && (k + 1 == |lines| ==> Scan(lines, k, playlistId, host, parse) == Ok([]))
      && (k + 1 < |lines| && host.absoluteUri(lines[k + 1]).None? ==>
            Scan(lines, k, playlistId, host, parse) == Scan(lines, k + 2, playlistId, host, parse))
      && (k + 1 < |lines| && host.absoluteUri(lines[k + 1]).Some? ==>
            Scan(lines, k, playlistId, host, parse) ==
            Prepend(Entry(parse(lines[k]).value, host.absoluteUri(lines[k + 1]).value, playlistId, host),
              Scan(lines, k + 2, playlistId, host, parse)))
  {
  }

  /** From cursor k on, the stream is a run of pairs: a tag line with `tvg-name`, then an absolute stream URL. */
  predicate PairedFrom(lines: seq<string>, k: nat, host: Host, parse: LineParser)
    requires k <= |lines|
    decreases |lines| - k
  {
    k == |lines| || (PairAt(lines, k, host, parse) && PairedFrom(lines, k + 2, host, parse))
  }

  predicate PairAt(lines: seq<string>, i: nat, host: Host, parse: LineParser) {
    && i + 1 < |lines|
    && IsExtInf(lines[i])
    && parse(lines[i]).Ok?
    && "tvg-name" in parse(lines[i]).value
    && host.absoluteUri(lines[i + 1]).Some?
  }

  /** Entry j of `ms` comes from the pair at lines k + 2j and k + 2j + 1. */
  predicate PairedEntries(lines: seq<string>, k: nat, ms: seq<Media>, playlistId: Guid, host: Host, parse: LineParser) {
    forall j :: 0 <= j < |ms| ==> EntryFrom(lines, k + 2 * j, ms[j], playlistId, host, parse)
  }

  lemma PairedEntriesCons(lines: seq<string>, k: nat, m: Media, ms: seq<Media>, playlistId: Guid, host: Host, parse: LineParser)
    requires EntryFrom(lines, k, m, playlistId, host, parse)
    requires PairedEntries(lines, k + 2, ms, playlistId, host, parse)
    ensures PairedEntries(lines, k, [m] + ms, playlistId, host, parse)
  {
    hide EntryFrom;
    var ms' := [m] + ms;
    forall j | 0 < j < |ms'|
      ensures EntryFrom(lines, k + 2 * j, ms'[j], playlistId, host, parse)
    {
      assert k + 2 * j == (k + 2) + 2 * (j - 1) && ms'[j] == ms[j - 1];
    }
  }

  /** An ordinary playlist yields exactly one entry per pair, in order. */
  lemma {:induction false} PairedPlaylist(lines: seq<string>, k: nat, playlistId: Guid, host: Host, parse: LineParser)
    requires k <= |lines| && PairedFrom(lines, k, host, parse)
    ensures Scan(lines, k, playlistId, host, parse).Ok?
    ensures 2 * |Scan(lines, k, playlistId, host, parse).value| == |lines| - k
    ensures PairedEntries(lines, k, Scan(lines, k, playlistId, host, parse).value, playlistId, host, parse)
    decreases |lines| - k
  {
    if k < |lines| {
      var s := StepAt(lines, k, playlistId, host, parse);
      StepEntry(lines, k, playlistId, host, parse);
      assert s.next == k + 2 && s.entry.Some?;
      ScanAt(lines, k, playlistId, host, parse);
      hide *;
      PairedPlaylist(lines, k + 2, playlistId, host, parse);
      PairedEntriesCons(lines, k, s.entry.value, Scan(lines, k + 2, playlistId, host, parse).value, playlistId, host, parse);
    }
  }
}
