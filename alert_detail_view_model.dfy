/** Loading the recorded clip of an alert
    (ViewModels/AlertDetailViewModel.swift): a bundled file name is split
    into resource name and extension, looked up in the application bundle,
    and on success the detail player is replaced. The bundle lookup
    (`Bundle.main.url(forResource:withExtension:)`) is a function parameter;
    players are identified by the url they play. */
module AlertDetail {
  import opened Base

  /** Position of the first `c` in `s`. */
  function IndexOfChar(s: string, c: char): (r: Option<nat>)
    ensures r.Some? ==> r.value < |s| && s[r.value] == c && c !in s[..r.value]
    ensures r.None? <==> c !in s
    decreases |s|
  {
    if s == [] then None
    else if s[0] == c then Some(0)
    else match IndexOfChar(s[1..], c)
      case Some(k) => assert s[..k + 1] == [s[0]] + s[1..][..k]; Some(k + 1)
      case None => None
  }

  /** Swift's `split(separator:)` with its default of omitting empty
      subsequences: the maximal separator-free runs of `s`, in order. */
  function Split(s: string, sep: char): (pieces: seq<string>)
    ensures forall k :: 0 <= k < |pieces| ==> pieces[k] != [] && sep !in pieces[k]
    decreases |s|
  {
    match IndexOfChar(s, sep)
    case None => if s == [] then [] else [s]
    case Some(i) => (if i == 0 then [] else [s[..i]]) + Split(s[i + 1..], sep)
  }

  /** Pieces glued back together with the separator between them. */
  function Join(pieces: seq<string>, sep: char): string
  {
    if pieces == [] then []
    else if |pieces| == 1 then pieces[0]
    else pieces[0] + [sep] + Join(pieces[1..], sep)
  }

  /** A piece followed by the separator splits off as that piece. */
  lemma SplitAfterPiece(a: string, sep: char, b: string)
    requires a != [] && sep !in a
    ensures Split(a + [sep] + b, sep) == [a] + Split(b, sep)
  {
    var s := a + [sep] + b;
    assert s[..|a|] == a;
    assert s[|a| + 1..] == b;
  }

  /** Splitting undoes joining for any list of non-empty, separator-free
      pieces: each piece comes back, in order. */
  lemma {:induction false} SplitJoinRoundTrip(pieces: seq<string>, sep: char)
    requires forall k :: 0 <= k < |pieces| ==> pieces[k] != [] && sep !in pieces[k]
    ensures Split(Join(pieces, sep), sep) == pieces
  {
    if |pieces| == 1 {
      assert IndexOfChar(pieces[0], sep).None?;
    } else if |pieces| > 1 {
      SplitJoinRoundTrip(pieces[1..], sep);
      SplitAfterPiece(pieces[0], sep, Join(pieces[1..], sep));
    }
  }

  /** The name/extension guard: accepted only when the split yields
      exactly two pieces, the first being the resource name and the last
      the extension. */
  function ParseFileName(name: string): (r: Option<(string, string)>)
    ensures r.Some? <==> |Split(name, '.')| == 2
    ensures r.Some? ==> r.value.0 == Split(name, '.')[0] && r.value.1 == Split(name, '.')[|Split(name, '.')| - 1]
  {
    var pieces := Split(name, '.');
    if |pieces| == 2 then Some((pieces[0], pieces[1])) else None
  }

  /** Any non-empty dot-free name and extension are recovered from
      `name.extension`. */
  lemma ParseFileNameRoundTrip(resource: string, extension: string)
    requires resource != [] && '.' !in resource
    requires extension != [] && '.' !in extension
    ensures ParseFileName(resource + "." + extension) == Some((resource, extension))
  {
    SplitJoinRoundTrip([resource, extension], '.');
    assert Join([resource, extension], '.') == resource + "." + extension by {
      assert Join([extension], '.') == extension;
    }
  }

  /** A leading separator yields no piece. */
  lemma SplitLeadingSeparator(t: string, sep: char)
    ensures Split([sep] + t, sep) == Split(t, sep)
  {
    assert IndexOfChar([sep] + t, sep) == Some(0);
    assert ([sep] + t)[1..] == t;
  }

  /** A non-empty separator-free text is one piece. */
  lemma SplitSinglePiece(a: string, sep: char)
    requires a != [] && sep !in a
    ensures Split(a, sep) == [a]
  {
  }

  /** Empty pieces are dropped before counting, so a doubled dot still
      passes. */
  lemma DoubledDotAccepted(resource: string, extension: string)
    requires resource != [] && '.' !in resource
    requires extension != [] && '.' !in extension
    ensures ParseFileName(resource + ".." + extension) == Some((resource, extension))
  {
    assert resource + ".." + extension == resource + ['.'] + (['.'] + extension);
    SplitAfterPiece(resource, '.', ['.'] + extension);
    SplitLeadingSeparator(extension, '.');
    SplitSinglePiece(extension, '.');
  }

  /** A single dot-free name followed by a dot leaves one piece, so it is
      rejected. */
  lemma TrailingDotRejected(resource: string)
    requires resource != [] && '.' !in resource
    ensures ParseFileName(resource + ".").None?
  {
    SplitAfterPiece(resource, '.', "");
    assert resource + "." == resource + ['.'] + "";
  }

  /** Three pieces are rejected. */
  lemma TwoDotsRejected(a: string, b: string, c: string)
    requires a != [] && '.' !in a && b != [] && '.' !in b && c != [] && '.' !in c
    ensures ParseFileName(a + "." + b + "." + c).None?
  {
    SplitSinglePiece(c, '.');
    SplitAfterPiece(b, '.', c);
    assert a + "." + b + "." + c == a + ['.'] + (b + ['.'] + c);
    SplitAfterPiece(a, '.', b + ['.'] + c);
  }

  /** A media player, identified by the url it plays. */
  datatype Player = Player(url: Url)

  /** The bundle's answer for a resource name and extension. */
  type Bundle = (string, string) -> Option<Url>

  /** The detail player after `loadVideo(byFileName:)`: a rejected name or
      a missing resource keeps the current player; otherwise a player for
      exactly the found url. */
  function PlayerAfterLoad(current: Option<Player>, name: string, bundle: Bundle): (p: Option<Player>)
    ensures ParseFileName(name).None? ==> p == current
    ensures ParseFileName(name).Some? ==>
              var (resource, extension) := ParseFileName(name).value;
              p == if bundle(resource, extension).Some? then Some(Player(bundle(resource, extension).value)) else current
  {
    match ParseFileName(name)
    case None => current
    case Some((resource, extension)) =>
      match bundle(resource, extension)
      case None => current
      case Some(url) => Some(Player(url))
  }

  /** Loading `resource.extension` for a non-empty, dot-free resource
      name and extension plays what the bundle finds for exactly that pair,
      and keeps the current player when the bundle finds nothing. */
  lemma LoadWellFormedName(current: Option<Player>, resource: string, extension: string, bundle: Bundle)
    requires resource != [] && '.' !in resource
    requires extension != [] && '.' !in extension
    ensures PlayerAfterLoad(current, resource + "." + extension, bundle) ==
              if bundle(resource, extension).Some? then Some(Player(bundle(resource, extension).value))
              else current
  {
    ParseFileNameRoundTrip(resource, extension);
  }

  class AlertDetailViewModel {
    var detectPlayer: Option<Player>
    var streamPlayer: Option<Player>

    constructor ()
      ensures detectPlayer == None && streamPlayer == None
    {
      detectPlayer := None;
      streamPlayer := None;
    }

    /** `loadVideo(byFileName:)`. */
    method LoadVideo(name: string, bundle: Bundle)
      modifies this
      ensures detectPlayer == PlayerAfterLoad(old(detectPlayer), name, bundle)
      ensures streamPlayer == old(streamPlayer)
    {
      var pieces := Split(name, '.');
      if |pieces| != 2 {
        return;
      }
      var resource, extension := pieces[0], pieces[|pieces| - 1];
      var url := bundle(resource, extension);
      if url.None? {
        return;
      }
      detectPlayer := Some(Player(url.value));
    }
  }
}
