/** Keys of stored objects: what `GetObjectsPath` and the rekey paths build, and what listing a prefix reads back. */
module ObjectKeys {
  import opened Outcomes
  import opened Primitives
  import opened Layout

  /** The abstract place of an object: the plain namespace or one encrypted generation, and the hash. */
  datatype Space = Plain | Generation(number: nat)
  datatype ObjectId = ObjectId(space: Space, hash: string)

  // Decimal text of a generation

  function Digit(n: nat): char
    requires n < 10
  {
    '0' + n as char
  }

  function Decimal(n: nat): (text: string)
    ensures text != "" && forall i | 0 <= i < |text| :: '0' <= text[i] <= '9'
  {
    if n < 10 then [Digit(n)] else Decimal(n / 10) + [Digit(n % 10)]
  }

  lemma {:induction false} DecimalInjective(a: nat, b: nat)
    requires Decimal(a) == Decimal(b)
    ensures a == b
  {
    var s, t := Decimal(a), Decimal(b);
    assert s[|s| - 1] == Digit(a % 10) && t[|t| - 1] == Digit(b % 10);
    if a >= 10 && b >= 10 {
      assert s[..|s| - 1] == Decimal(a / 10) && t[..|t| - 1] == Decimal(b / 10);
      DecimalInjective(a / 10, b / 10);
    }
  }

  // Paths

  function SpaceFor(key: Bytes, generation: nat): Space {
    if |key| > 0 then Generation(generation) else Plain
  }

  function Folder(space: Space): string {
    match space
    case Plain => "objects"
    case Generation(g) => Join(["objects", "encrypted", Decimal(g)])
  }

  function DirectoryPath(repositoryPath: string, id: ObjectId): string
    requires |id.hash| >= 2
  {
    Join([repositoryPath, Folder(id.space), id.hash[..2]])
  }

  function ObjectKey(repositoryPath: string, id: ObjectId): string
    requires |id.hash| >= 2
  {
    Join([DirectoryPath(repositoryPath, id), id.hash[2..]])
  }

  function GenerationPath(repositoryPath: string, generation: nat): string {
    Join([repositoryPath, "objects", "encrypted", Decimal(generation)])
  }

  /** The key a rekey reads and writes. */
  function RekeyKey(repositoryPath: string, generation: nat, hash: string): string
    requires |hash| >= 2
  {
    Join([GenerationPath(repositoryPath, generation), hash[..2], hash[2..]])
  }

  /** The prefix a generation is listed and deleted by, with its trailing slash. */
  function GenerationPrefix(repositoryPath: string, generation: nat): string {
    var path := GenerationPath(repositoryPath, generation);
    if path != "" && path[|path| - 1] == '/' then path else path + "/"
  }

  /** Both pieces of the hash are ordinary path segments; every hex text of three and more digits is such a hash. */
  predicate OrdinaryHash(hash: string) {
    |hash| >= 3 && SlashFree(hash) && hash[..2] != ".." && hash[2..] != "." && hash[2..] != ".."
  }

  lemma HexIsOrdinary(hash: string)
    requires IsHex(hash)
    ensures OrdinaryHash(hash)
  {
    assert hash[..2][0] == hash[0] && hash[2..][0] == hash[2];
    assert SlashFree(hash) by {
      forall i | 0 <= i < |hash| ensures hash[i] != '/' { assert IsHexDigit(hash[i]); }
    }
    assert IsHexDigit(hash[0]) && IsHexDigit(hash[2]);
  }

  lemma OrdinaryPieces(hash: string)
    requires OrdinaryHash(hash)
    ensures AllOrdinary([hash[..2], hash[2..]])
  {
    assert forall c | c in hash[..2] :: c in hash;
    assert forall c | c in hash[2..] :: c in hash;
  }

  // Segments of the keys

  function SpaceSegments(space: Space): seq<string> {
    match space
    case Plain => ["objects"]
    case Generation(g) => ["objects", "encrypted", Decimal(g)]
  }

  function KeySegments(repositoryPath: string, id: ObjectId): seq<string>
    requires |id.hash| >= 2
  {
    Base(repositoryPath) + (SpaceSegments(id.space) + [id.hash[..2], id.hash[2..]])
  }

  lemma SpaceSegmentsOrdinary(space: Space)
    ensures AllOrdinary(SpaceSegments(space)) && SpaceSegments(space) != []
  {
    match space
    case Plain => assert Ordinary("objects");
    case Generation(g) =>
      var d := Decimal(g);
      assert SlashFree(d) && d[0] != '.';
      assert Ordinary(d) && Ordinary("objects") && Ordinary("encrypted");
  }

  lemma FolderShape(space: Space)
    ensures Folder(space) == Glue(SpaceSegments(space)) && Folder(space) != ""
  {
    if space.Generation? {
      var segments := SpaceSegments(space);
      SpaceSegmentsOrdinary(space);
      KeepNonEmpty(segments);
      JoinOrdinary("", segments);
      assert Base("") == [] by { assert Split("") == [""]; }
      assert [] + segments == segments;
    }
  }

  lemma {:induction false} KeepNonEmpty(elements: seq<string>)
    requires forall i | 0 <= i < |elements| :: elements[i] != ""
    ensures NonEmpty(elements) == elements
  {
    if elements != [] {
      KeepNonEmpty(elements[1..]);
      assert elements == [elements[0]] + elements[1..];
    }
  }

  /** Joining a path, an already glued folder and more ordinary segments appends all their segments. */
  lemma JoinGlued(path: string, folder: seq<string>, segments: seq<string>)
    requires folder != [] && AllOrdinary(folder + segments)
    ensures Join([path, Glue(folder)] + segments) == Render(Rooted(path), Base(path) + (folder + segments))
    ensures IsClean(Rooted(path), Base(path) + (folder + segments))
  {
    JoinedText(path, folder, segments);
    JoinOrdinary(path, folder + segments);
  }

  lemma JoinTwo(path: string, first: string, second: string)
    requires AllOrdinary([first, second])
    ensures Join([path, first, second]) == Render(Rooted(path), Base(path) + [first, second])
  {
    assert [first] + [second] == [first, second];
    assert [path, Glue([first])] + [second] == [path, first, second];
    JoinGlued(path, [first], [second]);
  }

  lemma JoinedText(path: string, folder: seq<string>, segments: seq<string>)
    requires folder != [] && AllOrdinary(folder + segments)
    ensures var kept := NonEmpty([path, Glue(folder)] + segments);
            kept != [] && Glue(kept) == if path == "" then Glue(folder + segments)
                else path + "/" + Glue(folder + segments)
  {
    var tail := [Glue(folder)] + segments;
    assert forall i | 0 <= i < |segments| :: segments[i] == (folder + segments)[|folder| + i];
    GluedNotEmpty(folder, segments);
    KeepNonEmpty(tail);
    var elements := [path, Glue(folder)] + segments;
    assert elements[0] == path && elements[1..] == tail;
    GlueFirst(folder, segments);
    if path == "" {
      assert [] + tail == tail;
    } else {
      assert ([path] + tail)[0] == path && ([path] + tail)[1..] == tail;
    }
  }

  lemma GluedNotEmpty(folder: seq<string>, segments: seq<string>)
    requires folder != [] && AllOrdinary(folder + segments)
    ensures Glue(folder) != ""
  {
    assert folder[0] == (folder + segments)[0];
  }

  lemma GlueFirst(folder: seq<string>, segments: seq<string>)
    requires folder != []
    ensures Glue([Glue(folder)] + segments) == Glue(folder + segments)
  {
    if segments == [] {
      assert folder + segments == folder;
    } else {
      GlueAppend(folder, segments);
      assert ([Glue(folder)] + segments)[1..] == segments;
    }
  }

  lemma ObjectKeyShape(repositoryPath: string, id: ObjectId)
    requires OrdinaryHash(id.hash)
    ensures ObjectKey(repositoryPath, id) == Render(Rooted(repositoryPath), KeySegments(repositoryPath, id))
    ensures IsClean(Rooted(repositoryPath), KeySegments(repositoryPath, id))
  {
    var folder, first, name := SpaceSegments(id.space), id.hash[..2], id.hash[2..];
    var rooted, base := Rooted(repositoryPath), Base(repositoryPath);
    OrdinaryPieces(id.hash);
    assert Ordinary([first, name][0]) && Ordinary([first, name][1]);
    SpaceSegmentsOrdinary(id.space);
    FolderShape(id.space);
    JoinGlued(repositoryPath, folder, [first]);
    var directory := DirectoryPath(repositoryPath, id);
    assert [repositoryPath, Folder(id.space), first] == [repositoryPath, Glue(folder)] + [first];
    BaseOfRender(rooted, base + (folder + [first]));
    JoinGlued(directory, [name], []);
    assert [directory, Glue([name])] + [] == [directory, name];
    assert (base + (folder + [first])) + ([name] + []) == KeySegments(repositoryPath, id);
  }

  lemma GenerationPathShape(repositoryPath: string, generation: nat)
    ensures var segments := Base(repositoryPath) + SpaceSegments(Generation(generation));
            && GenerationPath(repositoryPath, generation) == Render(Rooted(repositoryPath), segments)
            && IsClean(Rooted(repositoryPath), segments)
            && GenerationPrefix(repositoryPath, generation) == GenerationPath(repositoryPath, generation) + "/"
  {
    var folder := SpaceSegments(Generation(generation));
    SpaceSegmentsOrdinary(Generation(generation));
    assert [folder[0]] + folder[1..] == folder;
    JoinGlued(repositoryPath, [folder[0]], folder[1..]);
    assert [repositoryPath, Glue([folder[0]])] + folder[1..] ==
             [repositoryPath, "objects", "encrypted", Decimal(generation)];
    LastOfRender(Rooted(repositoryPath), Base(repositoryPath) + folder);
  }

  lemma {:induction false} LastOfRender(rooted: bool, segments: seq<string>)
    requires segments != [] && segments[|segments| - 1] != "" && SlashFree(segments[|segments| - 1])
    ensures var text := Render(rooted, segments); text != "" && text[|text| - 1] != '/'
    decreases |segments|
  {
    var last := segments[|segments| - 1];
    if |segments| == 1 {
      assert segments == [last];
      assert last[|last| - 1] in last;
    } else {
      assert segments == segments[..|segments| - 1] + [last];
      GlueAppend(segments[..|segments| - 1], [last]);
      assert last[|last| - 1] in last;
    }
  }

  /** A rekey names the same keys as the paths objects were saved under. */
  lemma RekeyKeyAgrees(repositoryPath: string, generation: nat, hash: string)
    requires OrdinaryHash(hash)
    ensures RekeyKey(repositoryPath, generation, hash) ==
              ObjectKey(repositoryPath, ObjectId(Generation(generation), hash))
  {
    var id := ObjectId(Generation(generation), hash);
    var rooted, base, folder := Rooted(repositoryPath), Base(repositoryPath), SpaceSegments(id.space);
    ObjectKeyShape(repositoryPath, id);
    GenerationPathShape(repositoryPath, generation);
    var path := GenerationPath(repositoryPath, generation);
    BaseOfRender(rooted, base + folder);
    OrdinaryPieces(hash);
    JoinTwo(path, hash[..2], hash[2..]);
    assert (base + folder) + [hash[..2], hash[2..]] == KeySegments(repositoryPath, id);
  }

  /** No two objects share a key: not across hashes, not across generations, not with the plain namespace. */
  lemma ObjectKeyInjective(repositoryPath: string, a: ObjectId, b: ObjectId)
    requires OrdinaryHash(a.hash) && OrdinaryHash(b.hash)
    requires ObjectKey(repositoryPath, a) == ObjectKey(repositoryPath, b)
    ensures a == b
  {
    ObjectKeyShape(repositoryPath, a);
    ObjectKeyShape(repositoryPath, b);
    RenderInjective(Rooted(repositoryPath), KeySegments(repositoryPath, a), KeySegments(repositoryPath, b));
    var n := |Base(repositoryPath)|;
    var s, t := KeySegments(repositoryPath, a)[n..], KeySegments(repositoryPath, b)[n..];
    assert s == SpaceSegments(a.space) + [a.hash[..2], a.hash[2..]];
    assert t == SpaceSegments(b.space) + [b.hash[..2], b.hash[2..]];
    assert s[|s| - 2] == a.hash[..2] && s[|s| - 1] == a.hash[2..] && t[|t| - 2] == b.hash[..2]
           && t[|t| - 1] == b.hash[2..];
    assert a.hash == a.hash[..2] + a.hash[2..] && b.hash == b.hash[..2] + b.hash[2..];
    if a.space.Generation? {
      assert s[2] == Decimal(a.space.number) && t[2] == Decimal(b.space.number);
      DecimalInjective(a.space.number, b.space.number);
    }
  }

  // Listing and deleting by prefix

  lemma SplitRender(rooted: bool, segments: seq<string>)
    requires segments != [] && IsClean(rooted, segments)
    ensures Split(Render(rooted, segments)) == (if rooted then [""] else []) + segments
  {
    assert forall i | 0 <= i < |segments| :: SlashFree(segments[i]);
    SplitGlue(segments);
    if rooted {
      assert Render(rooted, segments) == "" + "/" + Glue(segments);
      SplitAtSlash("", Glue(segments));
      assert Split("") == [""];
    } else {
      assert [] + segments == segments;
    }
  }

  /** A key under the prefix of a generation is that generation's, and what follows the prefix splits into the hash. */
  lemma PrefixedKey(repositoryPath: string, generation: nat, id: ObjectId)
    requires OrdinaryHash(id.hash) && GenerationPrefix(repositoryPath, generation) <= ObjectKey(repositoryPath, id)
    ensures id.space == Generation(generation)
  {
    var more := PrefixedPieces(repositoryPath, generation, id);
    SameFolder(id, generation, more);
  }

  /** The pieces of a key under a generation's prefix begin with those of the prefix. */
  lemma PrefixedPieces(repositoryPath: string, generation: nat, id: ObjectId) returns (more: seq<string>)
    requires OrdinaryHash(id.hash) && GenerationPrefix(repositoryPath, generation) <= ObjectKey(repositoryPath, id)
    ensures SpaceSegments(id.space) + [id.hash[..2], id.hash[2..]] == SpaceSegments(Generation(generation)) + more
    ensures more != []
  {
    var rest := AfterPrefix(repositoryPath, generation, ObjectKey(repositoryPath, id));
    var folder, pieces := SpaceSegments(Generation(generation)), SpaceSegments(id.space) + [id.hash[..2], id.hash[2..]];
    ObjectKeyShape(repositoryPath, id);
    GenerationPathShape(repositoryPath, generation);
    more := Split(rest);
    PiecesAfter(Rooted(repositoryPath), Base(repositoryPath), folder, pieces, rest);
  }

  lemma AfterPrefix(repositoryPath: string, generation: nat, key: string) returns (rest: string)
    requires GenerationPrefix(repositoryPath, generation) <= key
    ensures key == GenerationPath(repositoryPath, generation) + "/" + rest
  {
    GenerationPathShape(repositoryPath, generation);
    rest := key[|GenerationPrefix(repositoryPath, generation)|..];
  }

  lemma PiecesAfter(rooted: bool, base: seq<string>, folder: seq<string>, pieces: seq<string>, rest: string)
    requires folder != [] && pieces != [] && IsClean(rooted, base + folder) && IsClean(rooted, base + pieces)
    requires Render(rooted, base + pieces) == Render(rooted, base + folder) + "/" + rest
    ensures pieces == folder + Split(rest)
  {
    RenderedPrefix(rooted, base + folder, base + pieces, rest);
    FolderOf(base, pieces, folder, Split(rest));
  }

  lemma FolderOf(base: seq<string>, pieces: seq<string>, folder: seq<string>, more: seq<string>)
    requires base + pieces == (base + folder) + more
    ensures pieces == folder + more
  {
    assert (base + folder) + more == base + (folder + more);
    CancelPrefix(base, pieces, folder + more);
  }

  lemma RenderedPrefix(rooted: bool, a: seq<string>, b: seq<string>, rest: string)
    requires a != [] && b != [] && IsClean(rooted, a) && IsClean(rooted, b)
    requires Render(rooted, b) == Render(rooted, a) + "/" + rest
    ensures b == a + Split(rest)
  {
    SplitAtSlash(Render(rooted, a), rest);
    SplitRender(rooted, a);
    SplitRender(rooted, b);
    CancelRoot(if rooted then [""] else [], a, b, Split(rest));
  }

  lemma CancelRoot(root: seq<string>, a: seq<string>, b: seq<string>, more: seq<string>)
    requires root + b == (root + a) + more
    ensures b == a + more
  {
    assert (root + a) + more == root + (a + more);
    CancelPrefix(root, b, a + more);
  }

  lemma CancelPrefix(a: seq<string>, s: seq<string>, t: seq<string>)
    requires a + s == a + t
    ensures s == t
  {
    assert s == (a + s)[|a|..] && t == (a + t)[|a|..];
  }

  lemma SameFolder(id: ObjectId, generation: nat, rest: seq<string>)
    requires |id.hash| >= 2 && rest != []
    requires SpaceSegments(id.space) + [id.hash[..2], id.hash[2..]] == SpaceSegments(Generation(generation)) + rest
    ensures id.space == Generation(generation)
  {
    var s := SpaceSegments(id.space) + [id.hash[..2], id.hash[2..]];
    assert |s| == 3 + |rest| && s[2] == Decimal(generation);
    if id.space.Generation? {
      assert s[2] == Decimal(id.space.number);
      DecimalInjective(id.space.number, generation);
    }
  }

  lemma KeyAfterPrefix(repositoryPath: string, generation: nat, hash: string)
    requires OrdinaryHash(hash)
    ensures ObjectKey(repositoryPath, ObjectId(Generation(generation), hash)) ==
            GenerationPrefix(repositoryPath, generation) + (hash[..2] + "/" + hash[2..])
  {
    var id := ObjectId(Generation(generation), hash);
    ObjectKeyShape(repositoryPath, id);
    GenerationPathShape(repositoryPath, generation);
    var start, pieces := Base(repositoryPath) + SpaceSegments(id.space), [hash[..2], hash[2..]];
    assert start + pieces == KeySegments(repositoryPath, id);
    RenderAppend(Rooted(repositoryPath), start, pieces);
    GluePair(hash[..2], hash[2..]);
  }

  lemma GluePair(a: string, b: string)
    ensures Glue([a, b]) == a + "/" + b
  {
    assert [a, b][1..] == [b];
  }

  lemma RenderAppend(rooted: bool, a: seq<string>, b: seq<string>)
    requires a != [] && b != []
    ensures Render(rooted, a + b) == (Render(rooted, a) + "/") + Glue(b)
  {
    GlueAppend(a, b);
  }

  function FolderText(space: Space): string {
    match space case Plain => "objects" case Generation(g) => "objects/encrypted/" + Decimal(g)
  }

  lemma FolderReads(space: Space)
    ensures Glue(SpaceSegments(space)) == FolderText(space)
  {
    if space.Generation? {
      var d := Decimal(space.number);
      GluePair("encrypted", d);
      assert ["objects", "encrypted", d][1..] == ["encrypted", d];
      assert "objects" + "/" + ("encrypted" + "/" + d) == "objects/encrypted/" + d;
    }
  }

  lemma SameText(path: string, folder: string, first: string, name: string)
    ensures (path + "/") + (folder + "/" + (first + "/" + name)) == path + "/" + folder + "/" + first + "/" + name
  {
  }

  /** Below a cleaned repository path, plain objects are in one folder and those of a generation in the generation's
      own, each in a folder of the first two characters of its hash. */
  lemma KeyLayout(repositoryPath: string, id: ObjectId)
    requires OrdinaryHash(id.hash) && Clean(repositoryPath) == repositoryPath && Base(repositoryPath) != []
    ensures ObjectKey(repositoryPath, id) ==
              repositoryPath + "/" + FolderText(id.space) + "/" + id.hash[..2] + "/" + id.hash[2..]
  {
    var first, name := id.hash[..2], id.hash[2..];
    ObjectKeyShape(repositoryPath, id);
    RenderAppend(Rooted(repositoryPath), Base(repositoryPath), SpaceSegments(id.space) + [first, name]);
    GlueAppend(SpaceSegments(id.space), [first, name]);
    GluePair(first, name);
    FolderReads(id.space);
    SameText(repositoryPath, FolderText(id.space), first, name);
  }

  /** The text of a number is its digits, the last one last. */
  lemma DecimalReads(n: nat)
    ensures n < 10 ==> Decimal(n) == ["0123456789"[n]]
    ensures n >= 10 ==> Decimal(n) == Decimal(n / 10) + ["0123456789"[n % 10]]
  {
  }

  /** Deleting by prefix concerns exactly the keys of the generation: 1 is not 10, and no plain object is touched. */
  lemma PrefixExact(repositoryPath: string, generation: nat, id: ObjectId)
    requires OrdinaryHash(id.hash)
    ensures GenerationPrefix(repositoryPath, generation) <= ObjectKey(repositoryPath, id) <==>
              id.space == Generation(generation)
  {
    if GenerationPrefix(repositoryPath, generation) <= ObjectKey(repositoryPath, id) {
      PrefixedKey(repositoryPath, generation, id);
    }
    if id.space == Generation(generation) {
      KeyAfterPrefix(repositoryPath, generation, id.hash);
    }
  }

  /** What the listing loop makes of one key: a hash, or nothing. */
  function ListedHash(prefix: string, key: string): Option<string> {
    var relative := if prefix <= key then key[|prefix|..] else key;
    var parts := Split(relative);
    if |parts| != 2 || |parts[0]| != 2 || parts[1] == "" then None else Some(parts[0] + parts[1])
  }

  /** Under the prefix, a key is listed as a hash exactly when it is the prefix and the two pieces of that hash. */
  lemma ListedExact(prefix: string, key: string, hash: string)
    requires prefix <= key
    ensures ListedHash(prefix, key) == Some(hash) <==>
            |hash| >= 3 && SlashFree(hash) && key == prefix + (hash[..2] + "/" + hash[2..])
  {
    var relative := key[|prefix|..];
    var parts := Split(relative);
    SplitParts(relative);
    if ListedHash(prefix, key) == Some(hash) {
      assert hash[..2] == parts[0] && hash[2..] == parts[1];
      assert parts == [parts[0], parts[1]];
      GluePair(parts[0], parts[1]);
      assert key == prefix + relative;
    }
    if |hash| >= 3 && SlashFree(hash) && key == prefix + (hash[..2] + "/" + hash[2..]) {
      assert relative == hash[..2] + "/" + hash[2..];
      assert forall c | c in hash[..2] :: c in hash;
      assert forall c | c in hash[2..] :: c in hash;
      SplitAtSlash(hash[..2], hash[2..]);
      SplitSlashFree(hash[..2]);
      SplitSlashFree(hash[2..]);
      assert parts == [hash[..2], hash[2..]];
      assert hash == hash[..2] + hash[2..];
    }
  }

  /** Saving under a hash and listing its generation gives the hash back. */
  predicate Recovered(repositoryPath: string, generation: nat, hash: string)
    requires |hash| >= 2
  {
    var key := ObjectKey(repositoryPath, ObjectId(Generation(generation), hash));
    GenerationPrefix(repositoryPath, generation) <= key
    && ListedHash(GenerationPrefix(repositoryPath, generation), key) == Some(hash)
  }

  /** Of the slash-free hashes, exactly those with two ordinary pieces are recovered; cleaning the path loses the
      others. */
  lemma RecoveredExactly(repositoryPath: string, generation: nat, hash: string)
    requires |hash| >= 3 && SlashFree(hash)
    ensures Recovered(repositoryPath, generation, hash) <==> OrdinaryHash(hash)
  {
    var key := ObjectKey(repositoryPath, ObjectId(Generation(generation), hash));
    var prefix := GenerationPrefix(repositoryPath, generation);
    if OrdinaryHash(hash) {
      KeyAfterPrefix(repositoryPath, generation, hash);
      ListedExact(prefix, key, hash);
    }
    if Recovered(repositoryPath, generation, hash) {
      ListedExact(prefix, key, hash);
      RecoveredIsClean(repositoryPath, generation, hash);
    }
  }

  lemma RecoveredIsClean(repositoryPath: string, generation: nat, hash: string)
    requires |hash| >= 3 && SlashFree(hash)
    requires ObjectKey(repositoryPath, ObjectId(Generation(generation), hash)) ==
             GenerationPrefix(repositoryPath, generation) + (hash[..2] + "/" + hash[2..])
    ensures OrdinaryHash(hash)
  {
    var id := ObjectId(Generation(generation), hash);
    var key := ObjectKey(repositoryPath, id);
    var before := (if Rooted(repositoryPath) then [""] else []) + (Base(repositoryPath) + SpaceSegments(id.space));
    SplitUnderPrefix(repositoryPath, generation, hash);
    // the key is the result of cleaning, so what follows the ordinary generation number is ordinary too
    var joined := Glue(NonEmpty([DirectoryPath(repositoryPath, id), hash[2..]]));
    assert key == Clean(joined) by { NonEmptyLast(DirectoryPath(repositoryPath, id), hash[2..]); }
    CleanSegments(joined);
    var n := |before|;
    assert Split(key)[n] == hash[..2] && Split(key)[n + 1] == hash[2..];
    assert Split(key)[n - 1] == before[n - 1];
  }

  lemma NonEmptyLast(a: string, b: string)
    requires b != ""
    ensures NonEmpty([a, b]) != []
  {
    assert [a, b][1..] == [b];
    KeepNonEmpty([b]);
  }

  lemma SplitUnderPrefix(repositoryPath: string, generation: nat, hash: string)
    requires |hash| >= 3 && SlashFree(hash)
    ensures var before :=
              (if Rooted(repositoryPath) then [""] else []) +
                  (Base(repositoryPath) + SpaceSegments(Generation(generation)));
            && Split(GenerationPrefix(repositoryPath, generation) + (hash[..2] + "/" + hash[2..])) ==
                 before + [hash[..2], hash[2..]]
            && before != [] && Ordinary(before[|before| - 1])
  {
    var path := GenerationPath(repositoryPath, generation);
    var folder := SpaceSegments(Generation(generation));
    var rest := hash[..2] + "/" + hash[2..];
    GenerationPathShape(repositoryPath, generation);
    assert forall c | c in hash[..2] :: c in hash;
    assert forall c | c in hash[2..] :: c in hash;
    SplitGlue([hash[..2], hash[2..]]);
    GluePair(hash[..2], hash[2..]);
    assert path + "/" + rest == (path + "/") + rest;
    SplitAtSlash(path, rest);
    SplitRender(Rooted(repositoryPath), Base(repositoryPath) + folder);
    SpaceSegmentsOrdinary(Generation(generation));
    assert Ordinary(folder[|folder| - 1]);
  }

  /** Past an ordinary segment, the text of a cleaned path has only ordinary segments. */
  lemma CleanSegments(path: string)
    ensures var parts := Split(Clean(path));
            forall i, j | 0 <= i < j < |parts| && Ordinary(parts[i]) :: Ordinary(parts[j])
  {
    var rooted, segments := Rooted(path), Base(path);
    BaseIsClean(path);
    if segments != [] {
      SplitRender(rooted, segments);
      SegmentsStayOrdinary(rooted, segments);
    } else if rooted {
      assert Clean(path) == "/";
      assert Split("/") == ["", ""] by { assert "/"[1..] == ""; assert Split("") == [""]; }
    } else {
      assert Split(".") == ["."] by { SplitSlashFree("."); }
    }
  }

  lemma SegmentsStayOrdinary(rooted: bool, segments: seq<string>)
    requires IsClean(rooted, segments)
    ensures var parts := (if rooted then [""] else []) + segments;
            forall i, j | 0 <= i < j < |parts| && Ordinary(parts[i]) :: Ordinary(parts[j])
  {
    var parts := (if rooted then [""] else []) + segments;
    var offset := if rooted then 1 else 0;
    forall i, j | 0 <= i < j < |parts| && Ordinary(parts[i]) ensures Ordinary(parts[j]) {
      assert parts[j] == segments[j - offset];
      assert i >= offset && parts[i] == segments[i - offset];
    }
  }

  /** A hash that begins with two dots is saved outside its generation and never listed. */
  lemma DottedHashIsLost(repositoryPath: string, generation: nat)
    ensures !Recovered(repositoryPath, generation, "..abc")
  {
    assert "..abc"[..2] == "..";
    RecoveredExactly(repositoryPath, generation, "..abc");
  }
}
