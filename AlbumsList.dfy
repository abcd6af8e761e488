/**
  The album list: the `Album` value, the feed mapper `Albums(_:)` that turns
  the parsed iTunes feed into albums, and `AlbumsListModel`, which holds the
  list and refreshes it through a JSON operation.

  The mapper follows Swift's casts exactly: `as? Array<Dictionary<String, Any>>`
  fails for the whole array when one element is not a dictionary, and the
  `[2]` subscript on `im:image` is unchecked. An entry whose artist and name
  labels are strings, and whose `im:image` is an array of dictionaries with
  fewer than three elements, stops the program (`IndexOutOfRange`,
  `Crashed`) instead of being skipped; if any element of `im:image` is not a
  dictionary, the cast fails and the entry is skipped.
 */
module AlbumsList {
  import opened Foundation
  import opened Errors

  datatype Album = Album(id: string, artist: string, name: string, image: string)

  /** The one feed the list ever requests. */
  const FeedURL: string := "https://itunes.apple.com/us/rss/topalbums/limit=100/json"

  /** `Dictionary<String, Any>` */
  type Dictionary = map<string, Json>

  /** What one feed entry contributes. */
  datatype Extracted = Kept(album: Album) | Skipped | IndexOutOfRange

  /** What the whole mapping produces: the albums, or a crash. */
  datatype Mapped = Mapped(albums: seq<Album>) | Crashed

  // ---------------------------------------------------------------------------
  // Swift's optional casts and optional chaining over the JSON tree

  /** `value as? Dictionary<String, Any>` */
  function AsDictionary(value: Option<Json>): Option<Dictionary> {
    if value.Some? && value.value.Object? then Some(value.value.fields) else None
  }

  /** `value as? String` */
  function AsString(value: Option<Json>): Option<string> {
    if value.Some? && value.value.String? then Some(value.value.text) else None
  }

  predicate IsDictionaryArray(value: Json) {
    value.Array? && forall k :: 0 <= k < |value.items| ==> value.items[k].Object?
  }

  /** `value as? Array<Dictionary<String, Any>>`: all elements are dictionaries, or nothing. */
  function AsDictionaryArray(value: Option<Json>): Option<seq<Dictionary>> {
    if value.Some? && IsDictionaryArray(value.value) then
      var items := value.value.items;
      Some(seq(|items|, k requires 0 <= k < |items| => items[k].fields))
    else None
  }

  /** `dictionary?[key]` */
  function Lookup(dictionary: Option<Dictionary>, key: string): Option<Json> {
    if dictionary.Some? && key in dictionary.value then Some(dictionary.value[key]) else None
  }

  /** `(dictionary[key] as? Dictionary<String, Any>)?["label"] as? String` */
  function Label(dictionary: Dictionary, key: string): Option<string> {
    AsString(Lookup(AsDictionary(Lookup(Some(dictionary), key)), "label"))
  }

  /** The JSON has a `feed` dictionary whose `entry` is an array of dictionaries. */
  predicate HasEntryArray(json: Json) {
    && json.Object? && "feed" in json.fields && json.fields["feed"].Object?
    && "entry" in json.fields["feed"].fields && IsDictionaryArray(json.fields["feed"].fields["entry"])
  }

  /**
    The records of `feed.entry`, in order: every element of that array, or
    none at all when the path is missing or one element is not a dictionary.
   */
  function Entries(json: Json): (entries: seq<Dictionary>)
    ensures !HasEntryArray(json) ==> entries == []
    ensures HasEntryArray(json)
        ==> var items := json.fields["feed"].fields["entry"].items;
            |entries| == |items| && forall k :: 0 <= k < |entries| ==> Object(entries[k]) == items[k]
  {
    match AsDictionaryArray(Lookup(AsDictionary(Lookup(AsDictionary(Some(json)), "feed")), "entry"))
    case None => []
    case Some(entries) => entries
  }

  /**
    The body of the loop in `Albums(_:)` for one entry: the four `if let`
    bindings in order. The image URL is always element 2 of `im:image`; that
    subscript is reached only when artist and name were found.
   */
  function Extract(entry: Dictionary): (r: Extracted)
    ensures r.IndexOutOfRange?
        ==> "im:image" in entry && IsDictionaryArray(entry["im:image"]) && |entry["im:image"].items| < 3
  {
    var artist := Label(entry, "im:artist");
    var name := Label(entry, "im:name");
    if artist.None? || name.None? then Skipped
    else
      match AsDictionaryArray(Lookup(Some(entry), "im:image"))
      case None => Skipped
      case Some(images) =>
        if |images| < 3 then IndexOutOfRange
        else
          var image := AsString(Lookup(Some(images[2]), "label"));
          var id := AsString(Lookup(AsDictionary(Lookup(AsDictionary(Lookup(Some(entry), "id")), "attributes")), "im:id"));
          if image.None? || id.None? then Skipped
          else Kept(Album(id.value, artist.value, name.value, image.value))
  }

  // ---------------------------------------------------------------------------
  // The mapping, specified and implemented

  /** What each entry contributes, position by position. */
  function Extractions(entries: seq<Dictionary>): (r: seq<Extracted>)
    ensures |r| == |entries|
  {
    seq(|entries|, i requires 0 <= i < |entries| => Extract(entries[i]))
  }

  /**
    The albums of a run of per-entry outcomes: one per kept entry, in entry
    order; the first out-of-range subscript crashes the mapping.
   */
  function Collect(results: seq<Extracted>): (r: Mapped)
    ensures r.Mapped? ==> |r.albums| <= |results|
  {
    if results == [] then Mapped([])
    else
      var rest := Collect(results[1..]);
      match results[0]
      case IndexOutOfRange => Crashed
      case Skipped => rest
      case Kept(album) => if rest.Crashed? then Crashed else Mapped([album] + rest.albums)
  }

  /**
    The specification of `Albums(_:)`: the albums of the entries of `json`.
    There are never more albums than entries, and the mapping crashes exactly
    when some entry reaches the `[2]` subscript with a short `im:image`.
   */
  function MapFeed(json: Json): (r: Mapped)
    ensures r.Mapped? ==> |r.albums| <= |Entries(json)|
    ensures r.Crashed?
        <==> exists i :: 0 <= i < |Entries(json)| && Extract(Entries(json)[i]).IndexOutOfRange?
  {
    var entries := Entries(json);
    var results := Extractions(entries);
    CollectCrashesIff(results);
    assert forall i :: 0 <= i < |results| ==> results[i] == Extract(entries[i]);
    Collect(results)
  }

  /** Runs two mappings one after the other, as the loop does over consecutive entries. */
  function Then(first: Mapped, second: Mapped): Mapped {
    if first.Crashed? || second.Crashed? then Crashed else Mapped(first.albums + second.albums)
  }

  /**
    Mapping splits over concatenation: an entry that is skipped does not stop
    the entries after it, and the albums of a later part follow those of an
    earlier one.
   */
  lemma {:induction false} CollectAppend(xs: seq<Extracted>, ys: seq<Extracted>)
    ensures Collect(xs + ys) == Then(Collect(xs), Collect(ys))
  {
    if xs == [] {
      assert xs + ys == ys;
    } else {
      assert (xs + ys)[1..] == xs[1..] + ys;
      CollectAppend(xs[1..], ys);
    }
  }

  /** The mapping crashes exactly when some entry's `im:image` subscript is out of range. */
  lemma {:induction false} CollectCrashesIff(results: seq<Extracted>)
    ensures Collect(results).Crashed? <==> exists i :: 0 <= i < |results| && results[i].IndexOutOfRange?
  {
    if results != [] {
      CollectCrashesIff(results[1..]);
      if !results[0].IndexOutOfRange? {
        assert forall i :: 1 <= i < |results| ==> results[i] == results[1..][i - 1];
      }
    }
  }

  /** `Albums(_:)`: walks `feed.entry` and appends the album of every complete entry. */
  method Albums(json: Json) returns (r: Mapped)
    ensures r == MapFeed(json)
  {
    var entries := Entries(json);
    ghost var results := Extractions(entries);
    var albums: seq<Album> := [];
    for i := 0 to |entries|
      invariant Collect(results[..i]) == Mapped(albums)
    {
      assert results[..i + 1] == results[..i] + [results[i]];
      CollectAppend(results[..i], [results[i]]);
      match Extract(entries[i])
      case IndexOutOfRange =>
        assert results == results[..i + 1] + results[i + 1..];
        CollectAppend(results[..i + 1], results[i + 1..]);
        return Crashed;
      case Skipped =>
      case Kept(album) =>
        albums := albums + [album];
    }
    assert results[..|entries|] == results;
    r := Mapped(albums);
  }

  // ---------------------------------------------------------------------------
  // What the mapping means

  /**
    The shape of a complete feed entry for `album`, written out field by field
    (the structure `Extract` navigates).
   */
  predicate Describes(entry: Dictionary, album: Album) {
    && "im:artist" in entry && entry["im:artist"].Object?
    && "label" in entry["im:artist"].fields && entry["im:artist"].fields["label"] == String(album.artist)
    && "im:name" in entry && entry["im:name"].Object?
    && "label" in entry["im:name"].fields && entry["im:name"].fields["label"] == String(album.name)
    && "im:image" in entry && IsDictionaryArray(entry["im:image"]) && |entry["im:image"].items| >= 3
    && "label" in entry["im:image"].items[2].fields
    && entry["im:image"].items[2].fields["label"] == String(album.image)
    && "id" in entry && entry["id"].Object?
    && "attributes" in entry["id"].fields && entry["id"].fields["attributes"].Object?
    && "im:id" in entry["id"].fields["attributes"].fields
    && entry["id"].fields["attributes"].fields["im:id"] == String(album.id)
  }

  /** An entry yields `album` exactly when it has that album's four strings in place. */
  lemma ExtractKeptIff(entry: Dictionary, album: Album)
    ensures Extract(entry) == Kept(album) <==> Describes(entry, album)
  {
  }

  /**
    An entry crashes the mapping exactly when its artist and name labels are
    strings and its `im:image` is an array of dictionaries with fewer than
    three elements.
   */
  lemma ExtractCrashesIff(entry: Dictionary)
    ensures Extract(entry).IndexOutOfRange?
        <==> && Label(entry, "im:artist").Some? && Label(entry, "im:name").Some?
             && "im:image" in entry && IsDictionaryArray(entry["im:image"])
             && |entry["im:image"].items| < 3
  {
  }

  /** A missing or mistyped `feed.entry` path gives no albums, not a failure. */
  lemma MissingEntriesMapToNothing(json: Json)
    requires || !json.Object?
             || "feed" !in json.fields
             || !json.fields["feed"].Object?
             || "entry" !in json.fields["feed"].fields
             || !IsDictionaryArray(json.fields["feed"].fields["entry"])
    ensures MapFeed(json) == Mapped([])
  {
  }

  /** Adds one to every index. */
  function Shifted(s: seq<nat>): (r: seq<nat>)
    ensures |r| == |s| && forall k :: 0 <= k < |s| ==> r[k] == s[k] + 1
  {
    seq(|s|, k requires 0 <= k < |s| => s[k] + 1)
  }

  /** The positions of the entries that yield an album, in increasing order. */
  ghost function KeptIndices(results: seq<Extracted>): seq<nat>
  {
    if results == [] then []
    else
      var rest := Shifted(KeptIndices(results[1..]));
      if results[0].Kept? then [0] + rest else rest
  }

  /** Positions below `n`, strictly increasing. */
  ghost predicate IncreasingBelow(idx: seq<nat>, n: nat) {
    && (forall k :: 0 <= k < |idx| ==> idx[k] < n)
    && (forall k, l :: 0 <= k < l < |idx| ==> idx[k] < idx[l])
  }

  /** Kept positions are in range and strictly increasing. */
  lemma {:induction false} KeptIndicesIncrease(results: seq<Extracted>)
    ensures IncreasingBelow(KeptIndices(results), |results|)
  {
    if results != [] {
      var tailIdx := KeptIndices(results[1..]);
      KeptIndicesIncrease(results[1..]);
      var rest := Shifted(tailIdx);
      assert IncreasingBelow(rest, |results|) && forall k :: 0 <= k < |rest| ==> 0 < rest[k];
      if results[0].Kept? {
        assert KeptIndices(results) == [0] + rest;
      } else {
        assert KeptIndices(results) == rest;
      }
    }
  }

  /** The k-th album is the album of the entry at the k-th kept position. */
  lemma {:induction false} KeptIndicesMatchAlbums(results: seq<Extracted>)
    requires Collect(results).Mapped?
    ensures var albums := Collect(results).albums;
            var idx := KeptIndices(results);
            && |idx| == |albums|
            && (forall k :: 0 <= k < |idx| ==> 0 <= idx[k] < |results| && results[idx[k]] == Kept(albums[k]))
  {
    if results != [] {
      var tail := results[1..];
      KeptIndicesMatchAlbums(tail);
      var rest := Shifted(KeptIndices(tail));
      if results[0].Kept? {
        assert KeptIndices(results) == [0] + rest;
        assert Collect(results).albums == [results[0].album] + Collect(tail).albums;
      } else {
        assert KeptIndices(results) == rest;
      }
    }
  }

  /** An entry at no kept position was skipped. */
  lemma {:induction false} UnkeptAreSkipped(results: seq<Extracted>)
    requires Collect(results).Mapped?
    ensures forall j :: 0 <= j < |results| && j !in KeptIndices(results) ==> results[j] == Skipped
  {
    if results != [] {
      var tail := results[1..];
      UnkeptAreSkipped(tail);
      var tailIdx := KeptIndices(tail);
      var idx := KeptIndices(results);
      forall j | 0 <= j < |results| && j !in idx
        ensures results[j] == Skipped
      {
        if j > 0 {
          assert j - 1 !in tailIdx;
          assert results[j] == tail[j - 1];
        }
      }
    }
  }

  /**
    Order and provenance: the k-th album is the album of the k-th kept entry,
    the kept entries are taken in increasing position, and every other entry
    was skipped.
   */
  lemma CollectPreservesOrder(results: seq<Extracted>)
    requires Collect(results).Mapped?
    ensures var albums := Collect(results).albums;
            var idx := KeptIndices(results);
            && |idx| == |albums|
            && (forall k :: 0 <= k < |idx| ==> idx[k] < |results| && results[idx[k]] == Kept(albums[k]))
            && (forall k, l :: 0 <= k < l < |idx| ==> idx[k] < idx[l])
            && (forall j :: 0 <= j < |results| && j !in idx ==> results[j] == Skipped)
  {
    KeptIndicesIncrease(results);
    KeptIndicesMatchAlbums(results);
    UnkeptAreSkipped(results);
  }

  /** The same, for the entries of a feed. */
  lemma MapFeedPreservesOrder(json: Json)
    requires MapFeed(json).Mapped?
    ensures var entries := Entries(json);
            var albums := MapFeed(json).albums;
            var idx := KeptIndices(Extractions(entries));
            && |idx| == |albums|
            && (forall k :: 0 <= k < |idx| ==> idx[k] < |entries| && Extract(entries[idx[k]]) == Kept(albums[k]))
            && (forall k, l :: 0 <= k < l < |idx| ==> idx[k] < idx[l])
            && (forall j :: 0 <= j < |entries| && j !in idx ==> Extract(entries[j]) == Skipped)
  {
    CollectPreservesOrder(Extractions(Entries(json)));
  }

  // ---------------------------------------------------------------------------
  // A feed built from albums maps back to the same albums

  /** The feed entry the iTunes feed carries for `album`. */
  function EntryOf(album: Album): Dictionary {
    map[
      "im:artist" := Object(map["label" := String(album.artist)]),
      "im:name" := Object(map["label" := String(album.name)]),
      "im:image" := Array([Object(map[]), Object(map[]), Object(map["label" := String(album.image)])]),
      "id" := Object(map["attributes" := Object(map["im:id" := String(album.id)])])
    ]
  }

  /** A feed document listing `albums` in order. */
  function FeedOf(albums: seq<Album>): Json {
    var entries := seq(|albums|, k requires 0 <= k < |albums| => Object(EntryOf(albums[k])));
    Object(map["feed" := Object(map["entry" := Array(entries)])])
  }

  lemma {:induction false} CollectKeptAll(albums: seq<Album>)
    ensures Collect(seq(|albums|, k requires 0 <= k < |albums| => Kept(albums[k]))) == Mapped(albums)
  {
    if albums != [] {
      var results := seq(|albums|, k requires 0 <= k < |albums| => Kept(albums[k]));
      assert results[1..] == seq(|albums[1..]|, k requires 0 <= k < |albums[1..]| => Kept(albums[1..][k]));
      CollectKeptAll(albums[1..]);
    }
  }

  /** Mapping the feed of any album list gives back exactly that list. */
  lemma FeedOfRoundTrip(albums: seq<Album>)
    ensures MapFeed(FeedOf(albums)) == Mapped(albums)
  {
    var entries := Entries(FeedOf(albums));
    assert entries == seq(|albums|, k requires 0 <= k < |albums| => EntryOf(albums[k]));
    forall k | 0 <= k < |albums| ensures Extract(entries[k]) == Kept(albums[k]) {
      assert Describes(entries[k], albums[k]);
      ExtractKeptIff(entries[k], albums[k]);
    }
    assert Extractions(entries) == seq(|albums|, k requires 0 <= k < |albums| => Kept(albums[k]));
    CollectKeptAll(albums);
  }

  /** One complete entry maps to one album carrying its four strings. */
  lemma SingleEntryFeed()
    ensures
      var entry := map[
        "im:artist" := Object(map["label" := String("Beatles")]),
        "im:name" := Object(map["label" := String("Rubber Soul")]),
        "im:image" := Array([Object(map["label" := String("s")]), Object(map["label" := String("m")]),
                             Object(map["label" := String("http://x/rs.jpg")])]),
        "id" := Object(map["attributes" := Object(map["im:id" := String("1")])])
      ];
      MapFeed(Object(map["feed" := Object(map["entry" := Array([Object(entry)])])]))
        == Mapped([Album("1", "Beatles", "Rubber Soul", "http://x/rs.jpg")])
  {
    var album := Album("1", "Beatles", "Rubber Soul", "http://x/rs.jpg");
    var entry := map[
      "im:artist" := Object(map["label" := String("Beatles")]),
      "im:name" := Object(map["label" := String("Rubber Soul")]),
      "im:image" := Array([Object(map["label" := String("s")]), Object(map["label" := String("m")]),
                           Object(map["label" := String("http://x/rs.jpg")])]),
      "id" := Object(map["attributes" := Object(map["im:id" := String("1")])])
    ];
    var json := Object(map["feed" := Object(map["entry" := Array([Object(entry)])])]);
    assert Entries(json) == [entry];
    assert Describes(entry, album);
    ExtractKeptIff(entry, album);
    assert Extractions([entry]) == [Kept(album)];
  }

  /**
    Of three entries where the middle one lacks `im:name`, the first and the
    third yield albums, in that order.
   */
  lemma {:induction false} MiddleEntrySkipped(first: Dictionary, second: Dictionary, third: Dictionary, a: Album, b: Album)
    requires Describes(first, a) && Describes(third, b)
    requires "im:name" !in second
    ensures Collect(Extractions([first, second, third])) == Mapped([a, b])
  {
    ExtractKeptIff(first, a);
    ExtractKeptIff(third, b);
    var results := Extractions([first, second, third]);
    assert results == [Kept(a), Skipped, Kept(b)];
    assert results[1..] == [Skipped, Kept(b)] && results[1..][1..] == [Kept(b)];
    assert Collect([Kept(b)]) == Mapped([b]) by {
      assert [Kept(b)][1..] == [];
    }
    assert Collect(results[1..]) == Mapped([b]);
  }

  // ---------------------------------------------------------------------------
  // The list controller

  class AlbumsListModel {
    var albums: seq<Album>

    constructor ()
      ensures albums == []
    {
      albums := [];
    }

    /**
      `requestAlbums()`: when `URL(string:)` accepts the feed URL, fetches it
      through `jsonOperation` and replaces `albums` with the mapped feed. A
      failed fetch throws the operation's own error and keeps `albums`.
     */
    method RequestAlbums(jsonOperation: Request -> Result<Json>, urlWithString: string -> Option<Url>)
      returns (sent: Option<Request>, completion: Completion)
      modifies this
      ensures sent == (if urlWithString(FeedURL).Some? then Some(Request(urlWithString(FeedURL).value)) else None)
      ensures sent.None? ==> completion == Returned && albums == old(albums)
      ensures sent.Some? && jsonOperation(sent.value).Failure?
          ==> completion == Threw(jsonOperation(sent.value).error) && albums == old(albums)
      ensures sent.Some? && jsonOperation(sent.value).Success?
          ==> match MapFeed(jsonOperation(sent.value).value)
              case Mapped(mapped) => completion == Returned && albums == mapped
              case Crashed => completion == Trapped && albums == old(albums)
    {
      sent := None;
      completion := Returned;
      match urlWithString(FeedURL)
      case None =>
      case Some(url) =>
        var request := Request(url);
        sent := Some(request);
        match jsonOperation(request)
        case Failure(e) =>
          completion := Threw(e);
        case Success(json) =>
          var mapped := Albums(json);
          match mapped
          case Crashed =>
            completion := Trapped;
          case Mapped(list) =>
            albums := list;
    }
  }
}
