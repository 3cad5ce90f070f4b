/**
 * Uploaded files on disk: streaming one in behind a size guard, deleting one, sweeping the orphans, and
 * the upload request that ties a file to an import.
 */
module Storage {
  import opened Prelude

  type Bytes = seq<bv8>
  type Location = seq<string>   // an absolute path, resolved into its segments

  datatype Entry = File(content: Bytes, mtime: int) | Directory

  datatype Failure = TooLarge | StreamBroken | OutsideRoot | IsDirectory | InvalidType | NoFile | DatabaseError
  datatype Result<T> = Ok(value: T) | Err(error: Failure)

  datatype SavedFile = SavedFile(path: Location, size: nat, checksum: string)

  // What the client sends: chunks, then an end or an error; the parser above may have cut the stream short.
  datatype Stream = Stream(chunks: seq<Bytes>, broken: bool, truncated: bool)

  // ---- Names

  function Lower(c: char): char { if 'A' <= c <= 'Z' then c - 'A' + 'a' else c }

  function LowerAll(s: string): (t: string)
    ensures |t| == |s| && forall i :: 0 <= i < |s| ==> t[i] == Lower(s[i])
  {
    seq(|s|, i requires 0 <= i < |s| => Lower(s[i]))
  }

  predicate Alphanumeric(c: char) { 'a' <= Lower(c) <= 'z' || '0' <= c <= '9' }

  function SanitizeExtension(extension: string): (r: string)
    ensures 2 <= |r| <= 11 && r[0] == '.'
    ensures forall c :: c in r[1..] ==> Alphanumeric(c) && Lower(c) == c
  {
    if 2 <= |extension| <= 11 && extension[0] == '.' && forall c :: c in extension[1..] ==> Alphanumeric(c)
    then LowerAll(extension) else ".dat"
  }

  // The part of a file name from its last dot on, if anything follows that dot.
  function LastDot(name: string): (r: Option<nat>)
    ensures r.Some? ==> r.value < |name| && name[r.value] == '.' && '.' !in name[r.value + 1..]
    ensures r.None? ==> '.' !in name
  {
    if name == "" then None
    else if name[|name| - 1] == '.' then Some(|name| - 1)
    else LastDot(name[..|name| - 1])
  }

  function ExtractExtension(filename: Option<string>): string {
    var name := if filename.Some? then filename.value else "";
    match LastDot(name)
    case None => ""
    case Some(i) => if i == |name| - 1 then "" else LowerAll(name[i..])
  }

  const ALLOWED_EXTENSIONS: set<string> := {".ndjson", ".jsonl", ".json"}
  const ALLOWED_MIME_TYPES: set<string> := {
    "application/x-ndjson", "application/json", "text/plain", "application/octet-stream"}

  predicate AllowedFileType(extension: string, mimeType: string) {
    extension in ALLOWED_EXTENSIONS && mimeType in ALLOWED_MIME_TYPES
  }

  // Whether name ends in suffix, whatever the case of its letters.
  predicate EndsIn(name: string, suffix: string) {
    |suffix| <= |name| && LowerAll(name[|name| - |suffix|..]) == suffix
  }

  lemma AllowedShape(a: string)
    requires a in ALLOWED_EXTENSIONS
    ensures 2 <= |a| <= 11 && a[0] == '.' && '.' !in a[1..]
    ensures LowerAll(a) == a && forall c :: c in a[1..] ==> Alphanumeric(c)
  {}

  lemma LastDotIs(name: string, k: nat)
    requires k < |name| && name[k] == '.' && '.' !in name[k + 1..]
    ensures LastDot(name) == Some(k)
  {
    assert '.' in name;
  }

  lemma LowerKeepsDots(s: string)
    requires s != []
    ensures s[0] == '.' <==> LowerAll(s)[0] == '.'
    ensures '.' in s[1..] ==> '.' in LowerAll(s)[1..]
  {
    if '.' in s[1..] {
      var j :| 0 <= j < |s[1..]| && s[1..][j] == '.';
      assert LowerAll(s)[1..][j] == Lower(s[j + 1]);
    }
  }

  lemma SuffixIff(name: string, a: string)
    requires 2 <= |a| && a[0] == '.' && '.' !in a[1..]
    ensures ExtractExtension(Some(name)) == a <==> EndsIn(name, a)
  {
    if EndsIn(name, a) {
      LowerKeepsDots(name[|name| - |a|..]);
      assert name[|name| - |a|..][1..] == name[|name| - |a| + 1..];
      LastDotIs(name, |name| - |a|);
    }
  }

  // A file name is accepted for exactly the three suffixes, and the accepted one is kept in the stored name.
  lemma ExtensionIff(name: string, a: string)
    requires a in ALLOWED_EXTENSIONS
    ensures ExtractExtension(Some(name)) == a <==> EndsIn(name, a)
    ensures SanitizeExtension(a) == a
  {
    AllowedShape(a);
    SuffixIff(name, a);
  }

  // Accepted are exactly the names that end, whatever the case, in one of the three suffixes, sent under one of
  // the four media types.
  lemma AcceptedIff(filename: Option<string>, mimeType: string)
    ensures var name := if filename.Some? then filename.value else "";
            AllowedFileType(ExtractExtension(filename), mimeType) <==>
              && (EndsIn(name, ".ndjson") || EndsIn(name, ".jsonl") || EndsIn(name, ".json"))
              && (mimeType == "application/x-ndjson" || mimeType == "application/json"
                  || mimeType == "text/plain" || mimeType == "application/octet-stream")
  {
    var name := if filename.Some? then filename.value else "";
    assert ExtractExtension(filename) == ExtractExtension(Some(name));
    SuffixAccepted(name);
  }

  lemma SuffixAccepted(name: string)
    ensures ExtractExtension(Some(name)) in ALLOWED_EXTENSIONS <==>
            EndsIn(name, ".ndjson") || EndsIn(name, ".jsonl") || EndsIn(name, ".json")
  {
    ExtensionIff(name, ".ndjson");
    ExtensionIff(name, ".jsonl");
    ExtensionIff(name, ".json");
  }

  // A letter or a digit, of either case.
  predicate LetterOrDigit(c: char) { 'a' <= c <= 'z' || 'A' <= c <= 'Z' || '0' <= c <= '9' }

  lemma SameLetters(c: char)
    ensures Alphanumeric(c) <==> LetterOrDigit(c)
  {}

  // The stored name keeps any extension of one to ten letters and digits in lower case, and gets ".dat" for another.
  lemma SanitizedIff(extension: string)
    ensures var kept := 2 <= |extension| <= 11 && extension[0] == '.'
                        && forall i :: 1 <= i < |extension| ==> LetterOrDigit(extension[i]);
            SanitizeExtension(extension) == if kept then LowerAll(extension) else ".dat"
  {
    if extension != "" {
      var rest := extension[1..];
      assert forall i :: 1 <= i < |extension| ==> extension[i] == rest[i - 1];
      assert forall i :: 0 <= i < |rest| ==> rest[i] in rest;
      forall c | c in rest ensures Alphanumeric(c) <==> LetterOrDigit(c) { SameLetters(c); }
    }
  }

  // ---- Staying below the storage root

  function Ups(n: nat): seq<string> { seq(n, _ => "..") }

  function Relative(from: Location, to: Location): Location {
    if from != [] && to != [] && from[0] == to[0] then Relative(from[1..], to[1..]) else Ups(|from|) + to
  }

  predicate Escapes(root: Location, candidate: Location) {
    var relative := Relative(root, candidate);
    relative != [] && ".." <= relative[0]
  }

  // Allowed are the root itself and what lies below it, except below a name that starts with two dots.
  lemma {:induction false} EscapesIff(root: Location, candidate: Location)
    ensures Escapes(root, candidate) <==>
            !(root <= candidate) || (|root| < |candidate| && ".." <= candidate[|root|])
  {
    if root != [] && candidate != [] && root[0] == candidate[0] {
      EscapesIff(root[1..], candidate[1..]);
      assert root <= candidate <==> root[1..] <= candidate[1..] by {
        assert root == [root[0]] + root[1..] && candidate == [candidate[0]] + candidate[1..];
      }
    } else if root != [] {
      assert Relative(root, candidate)[0] == "..";
    }
  }

  // A generated name never leads outside, whatever the extension.
  lemma GeneratedNameStays(root: Location, name: string)
    requires name != "" && name[0] != '.'
    ensures !Escapes(root, root + [name])
  {
    EscapesIff(root, root + [name]);
    assert !(".." <= name);
  }

  // ---- The sweep

  // Old enough by the cutoff, and not among the references listed before.
  predicate Sweepable<Path(==)>(mtime: int, cutoff: int, referenced: set<Path>, path: Path) {
    mtime <= cutoff && path !in referenced
  }

  predicate Orphan(entry: Entry, cutoff: int, referenced: set<Location>, path: Location) {
    entry.File? && Sweepable(entry.mtime, cutoff, referenced, path)
  }

  function Orphans(disk: map<Location, Entry>, paths: set<Location>, cutoff: int, referenced: set<Location>)
    : set<Location>
  {
    set p | p in paths && p in disk && Orphan(disk[p], cutoff, referenced, p)
  }

  function Elements(paths: seq<Location>): set<Location> { set p | p in paths }

  // What the sweep has removed after the first i entries.
  function Gone(disk: map<Location, Entry>, entries: seq<Location>, i: nat, stuck: set<Location>, cutoff: int,
                referenced: set<Location>): set<Location>
    requires i <= |entries|
  {
    Orphans(disk, Elements(entries[..i]) - stuck, cutoff, referenced)
  }

  lemma GoneNext(disk: map<Location, Entry>, entries: seq<Location>, i: nat, stuck: set<Location>, cutoff: int,
                 referenced: set<Location>)
    requires i < |entries| && forall j :: 0 <= j < i ==> entries[j] != entries[i]
    ensures var p, gone, next := entries[i], Gone(disk, entries, i, stuck, cutoff, referenced),
                                 Gone(disk, entries, i + 1, stuck, cutoff, referenced);
            && (p in disk - gone <==> p in disk)
            && if p !in stuck && p in disk && Orphan(disk[p], cutoff, referenced, p)
               then disk - next == disk - gone - {p} && |next| == |gone| + 1
               else next == gone
  {
    var p, gone := entries[i], Gone(disk, entries, i, stuck, cutoff, referenced);
    assert Elements(entries[..i + 1]) == Elements(entries[..i]) + {p};
    assert p !in gone;
    if p !in stuck && p in disk && Orphan(disk[p], cutoff, referenced, p) {
      assert Gone(disk, entries, i + 1, stuck, cutoff, referenced) == gone + {p};
    } else {
      assert Gone(disk, entries, i + 1, stuck, cutoff, referenced) == gone;
    }
  }

  class DiskFileStorage {
    const root: Location
    const orphanAge: int
    var disk: map<Location, Entry>

    constructor (root: Location, orphanAge: int)
      ensures this.root == root && this.orphanAge == orphanAge && disk == map[]
    {
      this.root, this.orphanAge, disk := root, orphanAge, map[];
    }

    // A stream that ends in time and fits is stored whole; any other leaves no file behind.
    method Save(source: Stream, extension: string, maxBytes: nat, uuid: string, now: int, digest: Bytes -> string)
        returns (r: Result<SavedFile>)
      requires uuid != "" && uuid[0] != '.'
      modifies this`disk
      ensures var path, content := root + [uuid + SanitizeExtension(extension)], Flatten(source.chunks);
              && (r == Ok(SavedFile(path, |content|, digest(content))) <==>
                  |content| <= maxBytes && !source.broken && !source.truncated)
              && (r == Err(TooLarge) <==> |content| > maxBytes || (!source.broken && source.truncated))
              && (r == Err(StreamBroken) <==> |content| <= maxBytes && source.broken)
              && disk == if r.Ok? then old(disk)[path := File(content, now)] else old(disk) - {path}
    {
      var path := root + [uuid + SanitizeExtension(extension)];
      GeneratedNameStays(root, uuid + SanitizeExtension(extension));
      if Escapes(root, path) { return Err(OutsideRoot); }
      var bytesWritten: nat := 0;
      var tooLarge := false;
      disk := disk[path := File([], now)];
      var i := 0;
      while i < |source.chunks| && !tooLarge
        invariant 0 <= i <= |source.chunks|
        invariant bytesWritten == |Flatten(source.chunks[..i])|
        invariant tooLarge <==> bytesWritten > maxBytes
        invariant path in disk && disk[path].File? && disk[path].mtime == now
        invariant !tooLarge ==> disk[path].content == Flatten(source.chunks[..i])
        invariant disk == old(disk)[path := disk[path]]
      {
        FlattenTake(source.chunks, i);
        bytesWritten := bytesWritten + |source.chunks[i]|;
        tooLarge := bytesWritten > maxBytes;
        if !tooLarge {
          disk := disk[path := File(disk[path].content + source.chunks[i], now)];
        }
        i := i + 1;
      }
      FlattenAll(source.chunks, i);
      assert !tooLarge ==> source.chunks[..i] == source.chunks;
      if tooLarge || source.broken || source.truncated {
        disk := disk - {path};
        return Err(if tooLarge || !source.broken then TooLarge else StreamBroken);
      }
      r := Ok(SavedFile(path, bytesWritten, digest(disk[path].content)));
    }

    method Delete(path: Location) returns (r: Result<()>)
      modifies this`disk
      ensures r == if Escapes(root, path) then Err(OutsideRoot)
                   else if path in old(disk) && old(disk)[path].Directory? then Err(IsDirectory) else Ok(())
      ensures disk == if r.Ok? then old(disk) - {path} else old(disk)
    {
      if Escapes(root, path) {
        r := Err(OutsideRoot);
      } else if path in disk && disk[path].Directory? {
        r := Err(IsDirectory);
      } else {
        disk := disk - {path};
        r := Ok(());
      }
    }

    // One entry of the sweep; what cannot be inspected or removed is passed over.
    method RemoveOrphan(path: Location, cutoff: int, referenced: set<Location>, stuck: set<Location>)
        returns (done: bool)
      modifies this`disk
      ensures done <==>
                && path !in stuck && path in old(disk) && path !in referenced
                && old(disk)[path].File? && old(disk)[path].mtime <= cutoff
      ensures disk == if done then old(disk) - {path} else old(disk)
    {
      done := path !in stuck && path in disk && Orphan(disk[path], cutoff, referenced, path);
      if done { disk := disk - {path}; }
    }

    // Removes exactly the old, unreferenced files it can; listing is None when the directory cannot be
    // read, and stuck are the entries that cannot be inspected or removed.
    method CleanupOrphans(referenced: set<Location>, listing: Option<seq<Location>>, now: int, stuck: set<Location>)
        returns (removed: nat)
      requires listing.Some? ==> forall i, j :: 0 <= i < j < |listing.value| ==> listing.value[i] != listing.value[j]
      modifies this`disk
      ensures var entries := if listing.Some? then listing.value else [];
              var gone := Orphans(old(disk), Elements(entries) - stuck, now - orphanAge, referenced);
              disk == old(disk) - gone && removed == |gone|
      ensures forall p :: p in old(disk) && p !in disk <==>
                && listing.Some? && p in listing.value && p !in stuck && p !in referenced
                && p in old(disk) && old(disk)[p].File? && old(disk)[p].mtime <= now - orphanAge
      ensures forall p :: p in disk ==> p in old(disk) && disk[p] == old(disk)[p]
    {
      removed := 0;
      var entries := if listing.Some? then listing.value else [];
      var cutoff := now - orphanAge;
      var i := 0;
      while i < |entries|
        invariant 0 <= i <= |entries|
        invariant disk == old(disk) - Gone(old(disk), entries, i, stuck, cutoff, referenced)
        invariant removed == |Gone(old(disk), entries, i, stuck, cutoff, referenced)|
      {
        GoneNext(old(disk), entries, i, stuck, cutoff, referenced);
        var done := RemoveOrphan(entries[i], cutoff, referenced, stuck);
        if done { removed := removed + 1; }
        i := i + 1;
      }
      assert entries[..i] == entries;
    }
  }
}
