/** The links of chunks, whose keys are always safe to presign, and of images, whose keys hold what the client sent. */
module Links {
  import opened Basics
  import opened Keys
  import opened Texts
  import opened Protocol
  import opened Invariant
  import opened Theorems
  import opened Percent
  import opened Url
  import opened Destinations
  import opened Presign
  import opened PresignRefresh
  import opened Addresses

  predicate PlainOrSpace(c: char) { PlainChar(c) || c == ' ' }

  lemma PlainBytes(s: string)
    requires All(s, PlainOrSpace)
    ensures ByteText(s)
  {
    forall i | 0 <= i < |s| ensures s[i] < 256 as char { assert PlainOrSpace(s[i]); }
  }

  lemma PlainNamesItself(key: string)
    requires PlainText(key)
    ensures ByteText(key) && StoreKey(key) == Some(key)
  {
    PlainIsClean(key);
    CleanIff(key);
    StoreKeyIs(key);
  }

  /**
   In every reachable state the key of every chunk row can be presigned as it is: the link
   names that object and a verifier computes the request that was signed.  The service's own
   requests for the key name it too.
   */
  lemma ChunkKeysServed(s: State, c: string, e: Endpoint, bucket: Bytes)
    requires Reachable(s) && c in s.chunks && PlainPath(e.base) && PlainPath(bucket)
    ensures PlainText(s.chunks[c].key) && ByteText(s.chunks[c].key)
    ensures PlainPath(Ascii(s.chunks[c].key)) && StoreKey(s.chunks[c].key) == Some(s.chunks[c].key)
    ensures var text := ObjectText(e, bucket, Ascii(s.chunks[c].key));
      && ParsedPath(text) == Some(text) && SentPath(text) == text && VerifiedPath(text) == Some(text)
  {
    var es :| Run(es) == Some(s);
    RunKeeps(es);
    assert ChunkLaid(s, c) && UploadLaid(s, s.chunks[c].upload);
    ChunkKeyPlain(s.uploads[s.chunks[c].upload].chunkPath, s.chunks[c].upload, s.chunks[c].index);
    PlainNamesItself(s.chunks[c].key);
    PlainAscii(s.chunks[c].key);
    PlainKeyParses(e, bucket, Ascii(s.chunks[c].key));
    PathsAgreeIff(ObjectText(e, bucket, Ascii(s.chunks[c].key)));
  }

  /**
   The key a chunk's link is refreshed for is its row's own, whether the entity has it or it
   is built from the prefix: different chunks never get each other's links.
   */
  lemma RefreshKeys(s: State, c: string, d: string)
    requires Reachable(s) && c in s.chunks && d in s.chunks
    ensures s.chunks[c].upload in s.uploads && s.chunks[d].upload in s.uploads
    ensures var row, prefix := s.chunks[c], s.uploads[s.chunks[c].upload].chunkPath;
      RequestKey(row.key, prefix, row.index) == row.key && RequestKey("", prefix, row.index) == row.key
    ensures c != d ==>
      RequestKey(s.chunks[c].key, s.uploads[s.chunks[c].upload].chunkPath, s.chunks[c].index)
        != RequestKey(s.chunks[d].key, s.uploads[s.chunks[d].upload].chunkPath, s.chunks[d].index)
  {
    var es :| Run(es) == Some(s);
    RunKeeps(es);
    assert ChunkLaid(s, c) && ChunkLaid(s, d);
    if s.chunks[c].key == s.chunks[d].key { KeysApart(s, c, d); }
  }

  // ---- images ----

  function CategoryOf(category: string): string { if category == "" then "images" else category }

  function UserOf(user: string): string { if user == "" then "public" else user }

  /** The key of an image: of what the client sent, the category, its user and the extension of the file's name. */
  function GenerateImagePath(category: string, user: string, d: Date, name: string, fileName: string): string {
    Seg(CategoryOf(category), Seg(UserOf(user), Dated(d, name + ['.'] + Extension(fileName))))
  }

  lemma AllImagePath(category: string, user: string, d: Date, name: string, fileName: string, p: char -> bool)
    requires d.Valid() && PlainText(name) && forall c | PlainChar(c) :: p(c)
    ensures All(GenerateImagePath(category, user, d, name, fileName), p)
      <==> All(category, p) && All(user, p) && All(Extension(fileName), p)
  {
    var last := name + ['.'] + Extension(fileName);
    AllConcat(name + ['.'], Extension(fileName), p);
    AllConcat(name, ['.'], p);
    AllDated(d, last, p);
    AllSeg(UserOf(user), Dated(d, last), p);
    AllSeg(CategoryOf(category), Seg(UserOf(user), Dated(d, last)), p);
    assert PlainText("images") && PlainText("public");
  }

  /** An image's link names it and is signed for the request a verifier computes exactly when category, user and extension are plain. */
  lemma ImageServedIff(e: Endpoint, category: string, user: string, d: Date, name: string, fileName: string, query: Bytes)
    requires PlainPath(e.base) && d.Valid() && PlainText(name)
    requires ByteText(GenerateImagePath(category, user, d, name, fileName))
    ensures var key := Ascii(GenerateImagePath(category, user, d, name, fileName));
      NamesObject(e, Ascii("image"), key) && RequestsAgree(e, Ascii("image"), key, Ascii("PUT"), query)
      <==> PlainText(category) && PlainText(user) && PlainText(Extension(fileName))
  {
    var key := GenerateImagePath(category, user, d, name, fileName);
    AllImagePath(category, user, d, name, fileName, PlainChar);
    PlainAscii(key);
    PlainAscii("image");
    KeyServedIff(e, Ascii("image"), Ascii(key), Ascii("PUT"), query);
  }

  /** A text of plain characters and spaces, not all plain, as the key of an image. */
  lemma SpacedKey(e: Endpoint, key: string, query: Bytes)
    requires PlainPath(e.base) && All(key, PlainOrSpace) && !PlainText(key)
    ensures ByteText(key) && NamesObject(e, Ascii("image"), Ascii(key))
    ensures !RequestsAgree(e, Ascii("image"), Ascii(key), Ascii("PUT"), query)
  {
    PlainBytes(key);
    PlainAscii("image");
    var i :| 0 <= i < |key| && !PlainChar(key[i]);
    assert PlainOrSpace(key[i]) && Ascii(key)[i] == SPACE;
    forall k | 0 <= k < |key| ensures PlainByte(Ascii(key)[k]) || Ascii(key)[k] == SPACE {
      assert PlainOrSpace(key[k]);
    }
    SpaceInKey(e, Ascii("image"), Ascii(key), Ascii("PUT"), query);
  }

  /** A file whose extension has a space in it: its link is signed for another request than a verifier computes. */
  lemma SpaceInExtension(e: Endpoint, category: string, user: string, d: Date, name: string, fileName: string, query: Bytes)
    requires PlainPath(e.base) && d.Valid() && PlainText(name) && PlainText(category) && PlainText(user)
    requires All(Extension(fileName), PlainOrSpace) && ' ' in Extension(fileName)
    ensures var key := GenerateImagePath(category, user, d, name, fileName);
      && ByteText(key) && NamesObject(e, Ascii("image"), Ascii(key))
      && !RequestsAgree(e, Ascii("image"), Ascii(key), Ascii("PUT"), query)
  {
    AllImagePath(category, user, d, name, fileName, PlainOrSpace);
    AllImagePath(category, user, d, name, fileName, PlainChar);
    assert !PlainChar(' ');
    SpacedKey(e, GenerateImagePath(category, user, d, name, fileName), query);
  }

  lemma SpacedFile()
    ensures Extension("a.jp g") == "jp g" && All("jp g", PlainOrSpace) && ' ' in "jp g"
  {
    assert "a.jp g"[1] == '.' && "jp g"[2] == ' ';
  }

  /** The file name "a.jp g": short and not empty, which is all that the service asks of it. */
  lemma SpacedImage(e: Endpoint, category: string, user: string, d: Date, name: string, query: Bytes)
    requires PlainPath(e.base) && d.Valid() && PlainText(name) && PlainText(category) && PlainText(user)
    ensures 1 <= |"a.jp g"| <= 256
    ensures var key := GenerateImagePath(category, user, d, name, "a.jp g");
      && ByteText(key) && NamesObject(e, Ascii("image"), Ascii(key))
      && !RequestsAgree(e, Ascii("image"), Ascii(key), Ascii("PUT"), query)
  {
    SpacedFile();
    SpaceInExtension(e, category, user, d, name, "a.jp g", query);
  }
}
