// The archive behind the recovery markers (internal/contentarchive/contentarchive.go):
// entries newest first, named by a hash of what they hold.
module ContentArchive {
  import opened Strs

  const MAX_ENTRIES := 5000
  const MAX_BYTES := 64 * 1024 * 1024
  const MIN_LENGTH := 64
  const SCHEME := "local-archive://"

  // space stands for session, sub-layer and position; size is that of the stored file.
  datatype Entry = Entry(id: string, space: string, body: string, size: nat)

  predicate IsHex(id: string) {
    id != "" && forall i :: 0 <= i < |id| ==> '0' <= id[i] <= '9' || 'a' <= id[i] <= 'f'
  }

  lemma HexCodes(id: string)
    ensures id != "" ==>
      (IsHex(id) <==> forall i :: 0 <= i < |id| ==> 48 <= id[i] as int <= 57 || 97 <= id[i] as int <= 102)
    ensures !IsHex("")
  {
  }

  // The truncated SHA-256 as a function that does not collide.
  ghost predicate GoodHash(hash: (string, string) -> string) {
    && (forall s, b :: IsHex(hash(s, b)))
    && (forall s, b, t, c :: hash(s, b) == hash(t, c) ==> s == t && b == c)
  }

  ghost predicate Sound(hash: (string, string) -> string, entries: seq<Entry>) {
    forall i :: 0 <= i < |entries| ==> entries[i].id == hash(entries[i].space, entries[i].body)
  }

  predicate Eligible(original: string) {
    TrimSpace(original) != "" && |original| >= MIN_LENGTH
  }

  function FindEntry(entries: seq<Entry>, id: string): Option<Entry> {
    if entries == [] then None
    else if entries[0].id == id then Some(entries[0])
    else FindEntry(entries[1..], id)
  }

  // What `slimference expand` prints for a URI.
  function Expand(entries: seq<Entry>, uri: string): Option<string> {
    if SCHEME <= uri then
      match FindEntry(entries, uri[|SCHEME|..])
      case Some(e) => Some(e.body)
      case None => None
    else None
  }

  function Bytes(entries: seq<Entry>): nat {
    if entries == [] then 0 else entries[0].size + Bytes(entries[1..])
  }

  predicate Within(entries: seq<Entry>) {
    |entries| <= MAX_ENTRIES && Bytes(entries) <= MAX_BYTES
  }

  // The default limits: 5000 entries and 64 MiB.
  lemma LimitsAre(entries: seq<Entry>)
    ensures Within(entries) <==> |entries| <= 5000 && Bytes(entries) <= 67108864
  {
  }

  // Worth archiving: 64 bytes or more, and not all white space.
  lemma EligibleMeans(original: string)
    ensures Eligible(original) <==> |original| >= 64 && !Blank(original)
  {
    TrimsToNothing(original);
  }

  // The longest run of newest entries within the limits.
  function Kept(entries: seq<Entry>): seq<Entry>
    decreases |entries|
  {
    if entries == [] || Within(entries) then entries else Kept(entries[..|entries| - 1])
  }

  lemma {:induction false} BytesLast(entries: seq<Entry>, last: Entry)
    ensures Bytes(entries + [last]) == Bytes(entries) + last.size
  {
    if entries == [] {
      assert [] + [last] == [last];
    } else {
      assert (entries + [last])[1..] == entries[1..] + [last];
      BytesLast(entries[1..], last);
    }
  }

  lemma {:induction false} KeptIsWithin(entries: seq<Entry>)
    ensures Within(Kept(entries)) && Kept(entries) <= entries
    decreases |entries|
  {
    if entries != [] && !Within(entries) {
      KeptIsWithin(entries[..|entries| - 1]);
    }
  }

  // No longer run is.
  lemma {:induction false} KeptIsLongest(entries: seq<Entry>, n: nat)
    requires |Kept(entries)| < n <= |entries|
    ensures !Within(entries[..n])
    decreases |entries|
  {
    hide Within;
    if n == |entries| {
      assert entries[..n] == entries;
    } else {
      KeptIsLongest(entries[..|entries| - 1], n);
      assert entries[..|entries| - 1][..n] == entries[..n];
    }
  }

  // The newest entry is kept exactly when it fits alone.
  lemma {:induction false} NewestKeptIff(entries: seq<Entry>)
    requires entries != []
    ensures Kept(entries) != [] <==> entries[0].size <= MAX_BYTES
    decreases |entries|
  {
    hide Bytes;
    var n := |entries| - 1;
    if n == 0 {
      BytesLast([], entries[0]);
      assert entries == [] + [entries[0]] && Bytes([]) == 0 by { NoBytes(); }
      assert Kept(entries) == if Within(entries) then entries else Kept(entries[..0]);
    } else {
      FirstCounts(entries);
      NewestKeptIff(entries[..n]);
    }
  }

  lemma NoBytes()
    ensures Bytes([]) == 0
  {
  }

  lemma FirstCounts(entries: seq<Entry>)
    requires entries != []
    ensures entries[0].size <= Bytes(entries)
  {
  }

  class Archive {
    const hash: (string, string) -> string
    var entries: seq<Entry>

    constructor (hash: (string, string) -> string)
      ensures this.hash == hash && entries == []
    {
      this.hash, entries := hash, [];
    }

    // Removes the oldest entries until the rest is within the limits.
    method EnforceLimits()
      modifies this
      ensures entries == Kept(old(entries))
    {
      var bytes := 0;
      for i := 0 to |entries|
        invariant entries == old(entries)
        invariant bytes == Bytes(entries[..i])
      {
        BytesLast(entries[..i], entries[i]);
        assert entries[..i] + [entries[i]] == entries[..i + 1];
        bytes := bytes + entries[i].size;
      }
      assert entries[..|entries|] == entries;
      while entries != [] && !(|entries| <= MAX_ENTRIES && bytes <= MAX_BYTES)
        invariant bytes == Bytes(entries)
        invariant Kept(entries) == Kept(old(entries))
        decreases |entries|
      {
        var n := |entries| - 1;
        BytesLast(entries[..n], entries[n]);
        assert entries[..n] + [entries[n]] == entries;
        bytes := bytes - entries[n].size;
        entries := entries[..n];
      }
    }

    // None if there is nothing worth storing or a file operation fails before anything is
    // visible; an entry that is already there is left alone.
    method Put(space: string, original: string, size: nat, filesOk: bool) returns (uri: Option<string>)
      modifies this
      ensures uri == if Eligible(original) && filesOk then Some(SCHEME + hash(space, original)) else None
      ensures entries == if uri.None? then old(entries) else Stored(hash, old(entries), space, original, size)
    {
      if !Eligible(original) || !filesOk { return None; }
      var id := hash(space, original);
      if FindEntry(entries, id).None? {
        entries := [Entry(id, space, original, size)] + entries;
        EnforceLimits();
      }
      uri := Some(SCHEME + id);
    }
  }

  function Stored(hash: (string, string) -> string, entries: seq<Entry>, space: string, original: string,
                  size: nat): seq<Entry> {
    var id := hash(space, original);
    if FindEntry(entries, id).Some? then entries else Kept([Entry(id, space, original, size)] + entries)
  }

  lemma {:induction false} FindIs(hash: (string, string) -> string, entries: seq<Entry>, id: string)
    requires Sound(hash, entries) && FindEntry(entries, id).Some?
    ensures var e := FindEntry(entries, id).value; e in entries && e.id == id == hash(e.space, e.body)
  {
    if entries[0].id != id {
      FindIs(hash, entries[1..], id);
    }
  }

  lemma StoredIsSound(hash: (string, string) -> string, entries: seq<Entry>, space: string, original: string, size: nat)
    requires Sound(hash, entries)
    ensures Sound(hash, Stored(hash, entries, space, original, size))
  {
    var all := [Entry(hash(space, original), space, original, size)] + entries;
    KeptIsWithin(all);
  }

  // A URI handed out for some bytes never leads to others.
  lemma NeverWrong(hash: (string, string) -> string, entries: seq<Entry>, space: string, original: string)
    requires GoodHash(hash) && Sound(hash, entries)
    ensures Expand(entries, SCHEME + hash(space, original)) in {None, Some(original)}
  {
    var id := hash(space, original);
    assert (SCHEME + id)[|SCHEME|..] == id;
    if FindEntry(entries, id).Some? {
      FindIs(hash, entries, id);
    }
  }

  // Right after storing, the bytes are there exactly when they were before or their file
  // fits the archive by itself.
  lemma StoredExpandsIff(hash: (string, string) -> string, entries: seq<Entry>, space: string, original: string,
                         size: nat)
    requires GoodHash(hash) && Sound(hash, entries)
    ensures Expand(Stored(hash, entries, space, original, size), SCHEME + hash(space, original)) == Some(original)
       <==> FindEntry(entries, hash(space, original)).Some? || size <= MAX_BYTES
  {
    hide Kept;
    var id := hash(space, original);
    assert (SCHEME + id)[|SCHEME|..] == id;
    if FindEntry(entries, id).Some? {
      FindIs(hash, entries, id);
    } else {
      var all := [Entry(id, space, original, size)] + entries;
      KeptIsWithin(all);
      NewestKeptIff(all);
    }
  }

  // A file over the byte limit is evicted by the very put that stored it.
  lemma OversizedIsLost(hash: (string, string) -> string, space: string, original: string)
    requires GoodHash(hash)
    ensures Expand(Stored(hash, [], space, original, MAX_BYTES + 1), SCHEME + hash(space, original)) == None
  {
    hide Kept, Expand, Stored;
    StoredExpandsIff(hash, [], space, original, MAX_BYTES + 1);
    StoredIsSound(hash, [], space, original, MAX_BYTES + 1);
    NeverWrong(hash, Stored(hash, [], space, original, MAX_BYTES + 1), space, original);
    assert FindEntry([], hash(space, original)) == None;
  }
}
