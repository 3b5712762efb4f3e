/**
 * `Project/Folder/ChannelFolder.cs`: the folder ids the channel hands to the
 * media server and reads back. A folder id is the name of a folder type, a
 * dash, and an optional id (`Playlist-<identifier>`).
 *
 * `Parse` uses the .NET pattern `(?<type>.*?)-(?<id>.*)?` without
 * `Singleline`, so `.` stops at a line feed. `RegexMatchAt` states what a
 * match of that pattern is; `RegexMatch` finds the leftmost one, as
 * `Regex.Match` does.
 */
module Folders {
  import opened Wrappers
  import opened Platform

  /** The folder types of the channel. */
  datatype ChannelFolderType = Home | Playlist {
    /** The enum member's name, as string concatenation and `Enum.TryParse` spell it. */
    function Name(): string {
      match this
      case Home => "Home"
      case Playlist => "Playlist"
    }
  }

  /** `Enum.TryParse(name, out type)` on an exact member name. */
  function TypeNamed(name: string): (r: Option<ChannelFolderType>)
    ensures r.Some? ==> r.value.Name() == name
    ensures r.None? ==> forall t: ChannelFolderType :: t.Name() != name
  {
    if name == "Home" then Some(Home)
    else if name == "Playlist" then Some(Playlist)
    else None
  }

  /** A folder: its type and, when set, its id. */
  datatype ChannelFolder = ChannelFolder(folderType: ChannelFolderType, id: Option<string>)

  /** Why `Parse` throws an `ArgumentException`. */
  datatype FolderError = FailedToParse | UnknownType(typeName: string)

  /** The private constructor: the id is stored only when it is neither null nor empty. */
  function NewFolder(folderType: ChannelFolderType, id: Option<string>): (f: ChannelFolder)
    ensures f.folderType == folderType
    ensures f.id.Some? <==> id.Some? && id.value != ""
    ensures f.id.Some? ==> f.id == id
  {
    if IsNullOrEmpty(id) then ChannelFolder(folderType, None) else ChannelFolder(folderType, id)
  }

  /** The id as string formatting renders it: null and empty both render as nothing. */
  function IdText(id: Option<string>): string {
    if id.Some? then id.value else ""
  }

  /** `GetUrl(type, id)`: the type's name, a dash, then the id (nothing when it is null or empty). */
  function GetUrl(folderType: ChannelFolderType, id: Option<string>): (r: string)
    ensures |r| == |folderType.Name()| + 1 + |IdText(id)|
    ensures r[..|folderType.Name()|] == folderType.Name() && r[|folderType.Name()|] == '-'
    ensures r[|folderType.Name()| + 1..] == IdText(id)
  {
    if IsNullOrEmpty(id) then folderType.Name() + "-" else folderType.Name() + "-" + id.value
  }

  /** `ToString()`: the folder's own url. */
  function ToString(f: ChannelFolder): (r: string)
    ensures r == GetUrl(f.folderType, f.id)
    ensures |r| > |f.folderType.Name()|
  {
    GetUrl(f.folderType, f.id)
  }

  /**
   * The pattern matches s starting at p, with its literal dash at `dash` and
   * its id group ending at `end`. The lazy type group takes the fewest
   * characters before a dash, none of them a line feed; the greedy id group
   * then takes every character up to the next line feed or the end.
   */
  predicate RegexMatchAt(s: string, p: nat, dash: nat, end: nat) {
    && p <= dash < end <= |s|
    && s[dash] == '-'
    && (forall i :: p <= i < dash ==> s[i] != '-' && s[i] != '\n')
    && (forall i :: dash < i < end ==> s[i] != '\n')
    && (end == |s| || s[end] == '\n')
    && dash + 1 <= end
  }

  /** The first index at or after `from` holding c. */
  function IndexOfFrom(s: string, c: char, from: nat): (r: Option<nat>)
    requires from <= |s|
    ensures r.Some? ==> from <= r.value < |s| && s[r.value] == c
    ensures r.Some? ==> forall i :: from <= i < r.value ==> s[i] != c
    ensures r.None? ==> forall i :: from <= i < |s| ==> s[i] != c
    decreases |s| - from
  {
    if from == |s| then None
    else if s[from] == c then Some(from)
    else IndexOfFrom(s, c, from + 1)
  }

  /** One past the last line feed before `before`, or 0 when there is none. */
  function LineStart(s: string, before: nat): (r: nat)
    requires before <= |s|
    ensures r <= before
    ensures forall i :: r <= i < before ==> s[i] != '\n'
    ensures r > 0 ==> s[r - 1] == '\n'
  {
    if before == 0 then 0
    else if s[before - 1] == '\n' then before
    else LineStart(s, before - 1)
  }

  /** `Regex.Match`: the leftmost match, as (start, dash, end), if there is one. */
  function RegexMatch(s: string): (r: Option<(nat, nat, nat)>)
  {
    match IndexOfFrom(s, '-', 0)
    case None => None
    case Some(dash) =>
      var end := match IndexOfFrom(s, '\n', dash + 1) case Some(e) => e case None => |s|;
      Some((LineStart(s, dash), dash, end))
  }

  /** `RegexMatch` returns a match, no match starts further left, and there is none at all when it returns nothing. */
  lemma RegexMatchLeftmost(s: string)
    ensures RegexMatch(s).Some? ==> RegexMatchAt(s, RegexMatch(s).value.0, RegexMatch(s).value.1, RegexMatch(s).value.2)
    ensures RegexMatch(s).Some? ==> forall q: nat, d: nat, e: nat :: q < RegexMatch(s).value.0 ==> !RegexMatchAt(s, q, d, e)
    ensures RegexMatch(s).None? ==> forall q: nat, d: nat, e: nat :: !RegexMatchAt(s, q, d, e)
  {
    match IndexOfFrom(s, '-', 0)
    case None =>
    case Some(dash) =>
      var p := LineStart(s, dash);
      forall q: nat, d: nat, e: nat | q < p
        ensures !RegexMatchAt(s, q, d, e)
      {
        if d < p - 1 {
          assert d < dash;
        } else if d > p - 1 {
          assert q <= p - 1 < d;
        }
      }
  }

  /**
   * `Parse(folderId)`: null or empty gives the home folder without an id; no
   * match throws; a type group that names no folder type throws; otherwise
   * the folder has that type and its id is the id group's text, stored even
   * when it is empty.
   */
  function Parse(folderId: Option<string>): (r: Result<ChannelFolder, FolderError>)
    ensures IsNullOrEmpty(folderId) ==> r == Ok(ChannelFolder(Home, None))
    ensures !IsNullOrEmpty(folderId) && r.Ok? ==> r.value.id.Some?
  {
    if IsNullOrEmpty(folderId) then Ok(NewFolder(Home, None))
    else
      var s := folderId.value;
      match RegexMatch(s)
      case None => Err(FailedToParse)
      case Some((p, dash, end)) =>
        match TypeNamed(s[p..dash])
        case None => Err(UnknownType(s[p..dash]))
        case Some(t) => Ok(NewFolder(t, None).(id := Some(s[dash + 1..end])))
  }

  /** A non-empty id without a dash cannot be parsed, and only such ids fail that way. */
  lemma ParseFailsWithoutDash(s: string)
    ensures Parse(Some(s)) == Err(FailedToParse) <==> s != "" && '-' !in s
  {
    if s != "" && '-' !in s {
      assert IndexOfFrom(s, '-', 0).None?;
    } else if s != "" {
      var k :| 0 <= k < |s| && s[k] == '-';
      assert IndexOfFrom(s, '-', 0).Some?;
    }
  }

  /**
   * A line-feed-free folder id splits at its first dash: the text before it
   * must name a folder type, and the text after it, possibly empty, is the id.
   */
  lemma ParseSplitsAtFirstDash(s: string, k: nat)
    requires '\n' !in s
    requires k < |s| && s[k] == '-' && '-' !in s[..k]
    ensures TypeNamed(s[..k]).None? ==> Parse(Some(s)) == Err(UnknownType(s[..k]))
    ensures TypeNamed(s[..k]).Some? ==> Parse(Some(s)) == Ok(ChannelFolder(TypeNamed(s[..k]).value, Some(s[k + 1..])))
  {
    assert forall i :: 0 <= i < k ==> s[i] != '-' by {
      forall i | 0 <= i < k ensures s[i] != '-' {
        assert s[i] == s[..k][i];
      }
    }
    assert IndexOfFrom(s, '-', 0) == Some(k);
    assert LineStart(s, k) == 0 by {
      LineStartNoFeed(s, k);
    }
    assert IndexOfFrom(s, '\n', k + 1).None?;
    assert s[k + 1..|s|] == s[k + 1..];
  }

  lemma {:induction false} LineStartNoFeed(s: string, before: nat)
    requires before <= |s| && '\n' !in s
    ensures LineStart(s, before) == 0
  {
    if before > 0 {
      assert s[before - 1] in s;
      LineStartNoFeed(s, before - 1);
    }
  }

  /**
   * Round trip: the url of a folder type and a line-feed-free id parses back
   * to that type, with the id (empty for a null id), and prints as the same url.
   */
  lemma UrlRoundTrip(t: ChannelFolderType, id: Option<string>)
    requires id.Some? ==> '\n' !in id.value
    ensures Parse(Some(GetUrl(t, id))) == Ok(ChannelFolder(t, Some(IdText(id))))
    ensures ToString(ChannelFolder(t, Some(IdText(id)))) == GetUrl(t, id)
  {
    var s := GetUrl(t, id);
    var k := |t.Name()|;
    assert s[..k] == t.Name();
    assert '-' !in s[..k] && '\n' !in s[..k];
    assert '\n' !in s by {
      forall i | 0 <= i < |s| ensures s[i] != '\n' {
        if i < k {
          assert s[i] == s[..k][i];
        } else if i > k {
          assert s[i] == s[k + 1..][i - k - 1];
        }
      }
    }
    ParseSplitsAtFirstDash(s, k);
  }

  /** Printing a folder parsed from a line-feed-free id gives that id back. */
  lemma ParsePrintRoundTrip(s: string)
    requires '\n' !in s && s != ""
    requires Parse(Some(s)).Ok?
    ensures ToString(Parse(Some(s)).value) == s
  {
    var k :| 0 <= k < |s| && s[k] == '-' && '-' !in s[..k] by {
      ParseFailsWithoutDash(s);
      var m := IndexOfFrom(s, '-', 0).value;
      assert '-' !in s[..m];
    }
    ParseSplitsAtFirstDash(s, k);
    var t := TypeNamed(s[..k]).value;
    assert s == s[..k] + [s[k]] + s[k + 1..];
    assert s == t.Name() + "-" + s[k + 1..];
    if s[k + 1..] == "" {
      assert s == t.Name() + "-";
    }
  }

  /** The first c at or after `from` is at k. */
  lemma IndexOfFromIs(s: string, c: char, from: nat, k: nat)
    requires from <= k < |s| && s[k] == c
    requires forall i :: from <= i < k ==> s[i] != c
    ensures IndexOfFrom(s, c, from) == Some(k)
  {
    assert s[k] == c;
  }

  /** The line holding index `before` starts at k. */
  lemma LineStartIs(s: string, before: nat, k: nat)
    requires k <= before <= |s| && (k == 0 || s[k - 1] == '\n')
    requires forall i :: k <= i < before ==> s[i] != '\n'
    ensures LineStart(s, before) == k
  {
  }

  /**
   * Parsing any non-empty id: the match starts at the start p of the line
   * holding the first dash k, so the type group is that line's text before
   * the dash, and the id group runs to the line's end e. Earlier lines
   * without a dash are skipped and later lines are ignored.
   */
  lemma ParseAtFirstDash(s: string, p: nat, k: nat, e: nat)
    requires k < |s| && s[k] == '-' && forall i :: 0 <= i < k ==> s[i] != '-'
    requires p <= k && (p == 0 || s[p - 1] == '\n') && forall i :: p <= i < k ==> s[i] != '\n'
    requires k < e <= |s| && (e == |s| || s[e] == '\n') && forall i :: k < i < e ==> s[i] != '\n'
    ensures TypeNamed(s[p..k]).None? ==> Parse(Some(s)) == Err(UnknownType(s[p..k]))
    ensures TypeNamed(s[p..k]).Some? ==> Parse(Some(s)) == Ok(ChannelFolder(TypeNamed(s[p..k]).value, Some(s[k + 1..e])))
  {
    IndexOfFromIs(s, '-', 0, k);
    LineStartIs(s, k, p);
    if e < |s| {
      IndexOfFromIs(s, '\n', k + 1, e);
    } else {
      assert IndexOfFrom(s, '\n', k + 1).None?;
    }
  }

}
