/**
  The framed byte stream of an artifact (src/format_bench/artifact_digest.py), its
  encoder and a decoder that inverts it.
*/
module ArtifactFraming {
  import opened Common

  type Byte = x: int | 0 <= x < 256
  type Bytes = seq<Byte>

  // ---------- Eight-byte lengths ----------

  function Power256(k: nat): nat { if k == 0 then 1 else 256 * Power256(k - 1) }

  /** The first number that int.to_bytes(8, "big") refuses. */
  const LENGTH_LIMIT: nat := 0x1_0000_0000_0000_0000

  function BigEndian(n: nat, k: nat): Bytes {
    if k == 0 then [] else BigEndian(n / 256, k - 1) + [n % 256]
  }

  function Number(bs: Bytes): nat {
    if bs == [] then 0 else 256 * Number(bs[..|bs| - 1]) + bs[|bs| - 1]
  }

  lemma {:induction false} BigEndianInverse(n: nat, k: nat)
    requires n < Power256(k)
    ensures |BigEndian(n, k)| == k && Number(BigEndian(n, k)) == n
  {
    if k > 0 {
      BigEndianInverse(n / 256, k - 1);
      assert BigEndian(n, k)[..k - 1] == BigEndian(n / 256, k - 1);
    }
  }

  lemma LengthLimit()
    ensures Power256(8) == LENGTH_LIMIT
  {
  }

  /** A length and the bytes it announces. */
  function Sized(value: Bytes): Bytes { BigEndian(|value|, 8) + value }

  /** Reads back a length and its bytes: the bytes and what follows. */
  function ReadSized(bs: Bytes): Option<(Bytes, Bytes)> {
    if |bs| < 8 || |bs| - 8 < Number(bs[..8]) then None
    else Some((bs[8..8 + Number(bs[..8])], bs[8 + Number(bs[..8])..]))
  }

  lemma SizedInverse(value: Bytes, rest: Bytes)
    requires |value| < LENGTH_LIMIT
    ensures ReadSized(Sized(value) + rest) == Some((value, rest))
  {
    LengthLimit();
    BigEndianInverse(|value|, 8);
    var bs := Sized(value) + rest;
    assert bs[..8] == BigEndian(|value|, 8);
    assert bs[8..8 + |value|] == value && bs[8 + |value|..] == rest;
  }

  // ---------- Frames ----------

  function Ascii(s: string): Bytes
    requires forall i :: 0 <= i < |s| ==> s[i] < 128 as char
  {
    seq(|s|, i requires 0 <= i < |s| => s[i] as int)
  }

  const ROOT_FILE: Bytes := Ascii("root-file")
  const ROOT_DIRECTORY: Bytes := Ascii("root-directory")
  const DIRECTORY_ENTRY: Bytes := Ascii("directory-entry")
  const FILE_ENTRY: Bytes := Ascii("file-entry")

  function Frame(kind: Bytes, value: Bytes): Bytes { kind + Sized(value) }

  /** A directory entry (no content) or a file entry, under its encoded relative path. */
  datatype Entry = Entry(path: Bytes, content: Option<Bytes>)

  /** What the digest is fed for: one file, or the entries of a directory in order. */
  datatype Artifact = OneFile(content: Bytes) | Listing(entries: seq<Entry>)

  predicate SmallEntry(e: Entry) {
    |e.path| < LENGTH_LIMIT && (e.content.Some? ==> |e.content.value| < LENGTH_LIMIT)
  }

  /** Every length fits its eight bytes; otherwise to_bytes raises. */
  predicate Small(a: Artifact) {
    match a
    case OneFile(content) => |content| < LENGTH_LIMIT
    case Listing(entries) => AllSmall(entries)
  }

  predicate AllSmall(entries: seq<Entry>) {
    forall i | 0 <= i < |entries| :: SmallEntry(entries[i])
  }

  function EncodeEntry(e: Entry): Bytes {
    if e.content.None? then Frame(DIRECTORY_ENTRY, e.path)
    else Frame(FILE_ENTRY, e.path) + Sized(e.content.value)
  }

  function EncodeEntries(entries: seq<Entry>): Bytes {
    if entries == [] then [] else EncodeEntry(entries[0]) + EncodeEntries(entries[1..])
  }

  function Encode(a: Artifact): Bytes {
    match a
    case OneFile(content) => Frame(ROOT_FILE, []) + Sized(content)
    case Listing(entries) => Frame(ROOT_DIRECTORY, []) + EncodeEntries(entries)
  }

  // ---------- The decoder ----------

  function DecodeEntry(bs: Bytes): Option<(Entry, Bytes)> {
    if DIRECTORY_ENTRY <= bs then
      var path := ReadSized(bs[|DIRECTORY_ENTRY|..]);
      if path.None? then None else Some((Entry(path.value.0, None), path.value.1))
    else if FILE_ENTRY <= bs then
      var path := ReadSized(bs[|FILE_ENTRY|..]);
      if path.None? then None
      else
        var content := ReadSized(path.value.1);
        if content.None? then None
        else Some((Entry(path.value.0, Some(content.value.0)), content.value.1))
    else None
  }

  function DecodeEntries(bs: Bytes): Option<seq<Entry>>
    decreases |bs|
  {
    if bs == [] then Some([])
    else
      var first := DecodeEntry(bs);
      if first.None? || |first.value.1| >= |bs| then None
      else
        var rest := DecodeEntries(first.value.1);
        if rest.None? then None else Some([first.value.0] + rest.value)
  }

  function Decode(bs: Bytes): Option<Artifact> {
    if ROOT_FILE <= bs then
      var tag := ReadSized(bs[|ROOT_FILE|..]);
      if tag.None? then None
      else
        var content := ReadSized(tag.value.1);
        if content.None? then None else Some(OneFile(content.value.0))
    else if ROOT_DIRECTORY <= bs then
      var tag := ReadSized(bs[|ROOT_DIRECTORY|..]);
      if tag.None? then None
      else
        var entries := DecodeEntries(tag.value.1);
        if entries.None? then None else Some(Listing(entries.value))
    else None
  }

  // ---------- Unique decodability ----------

  /** No tag begins another, so the first bytes tell which frame follows. */
  lemma TagsApart(rest: Bytes)
    ensures !(DIRECTORY_ENTRY <= FILE_ENTRY + rest)
    ensures !(ROOT_FILE <= ROOT_DIRECTORY + rest)
  {
    assert (FILE_ENTRY + rest)[0] == 'f' as int && DIRECTORY_ENTRY[0] == 'd' as int;
    assert (ROOT_DIRECTORY + rest)[5] == 'd' as int && ROOT_FILE[5] == 'f' as int;
  }

  lemma FrameInverse(kind: Bytes, value: Bytes, rest: Bytes)
    requires |value| < LENGTH_LIMIT
    ensures var bs := Frame(kind, value) + rest;
            && kind <= bs && ReadSized(bs[|kind|..]) == Some((value, rest))
            && bs == kind + (Sized(value) + rest)
  {
    var bs := Frame(kind, value) + rest;
    SizedInverse(value, rest);
    assert bs == kind + (Sized(value) + rest);
    assert bs[|kind|..] == Sized(value) + rest;
  }

  lemma DirectoryInverse(path: Bytes, rest: Bytes)
    requires |path| < LENGTH_LIMIT
    ensures DecodeEntry(Frame(DIRECTORY_ENTRY, path) + rest) == Some((Entry(path, None), rest))
  {
    FrameInverse(DIRECTORY_ENTRY, path, rest);
  }

  lemma FileInverse(path: Bytes, content: Bytes, rest: Bytes)
    requires |path| < LENGTH_LIMIT && |content| < LENGTH_LIMIT
    ensures DecodeEntry(Frame(FILE_ENTRY, path) + (Sized(content) + rest)) == Some((Entry(path, Some(content)), rest))
  {
    FrameInverse(FILE_ENTRY, path, Sized(content) + rest);
    SizedInverse(content, rest);
    TagsApart(Sized(path) + (Sized(content) + rest));
  }

  lemma EntryInverse(e: Entry, rest: Bytes)
    requires SmallEntry(e)
    ensures DecodeEntry(EncodeEntry(e) + rest) == Some((e, rest))
  {
    hide DecodeEntry, Frame, Sized;
    if e.content.None? {
      DirectoryInverse(e.path, rest);
    } else {
      FileInverse(e.path, e.content.value, rest);
      assert EncodeEntry(e) + rest == Frame(FILE_ENTRY, e.path) + (Sized(e.content.value) + rest);
    }
  }

  lemma {:induction false} EntriesInverse(entries: seq<Entry>)
    requires AllSmall(entries)
    ensures DecodeEntries(EncodeEntries(entries)) == Some(entries)
  {
    if entries != [] {
      EntryInverse(entries[0], EncodeEntries(entries[1..]));
      EntriesInverse(entries[1..]);
      assert |EncodeEntry(entries[0])| > 0;
      assert [entries[0]] + entries[1..] == entries;
    }
  }

  lemma OneFileInverse(content: Bytes)
    requires |content| < LENGTH_LIMIT
    ensures Decode(Frame(ROOT_FILE, []) + Sized(content)) == Some(OneFile(content))
  {
    FrameInverse(ROOT_FILE, [], Sized(content));
    SizedInverse(content, []);
    assert Sized(content) + [] == Sized(content);
  }

  lemma ListingInverse(entries: seq<Entry>)
    requires AllSmall(entries)
    ensures Decode(Frame(ROOT_DIRECTORY, []) + EncodeEntries(entries)) == Some(Listing(entries))
  {
    var tail := EncodeEntries(entries);
    FrameInverse(ROOT_DIRECTORY, [], tail);
    TagsApart(Sized([]) + tail);
    EntriesInverse(entries);
  }

  /** The decoder inverts the encoder on every artifact whose lengths fit. */
  lemma DecodeInverts(a: Artifact)
    requires Small(a)
    ensures Decode(Encode(a)) == Some(a)
  {
    match a
    case OneFile(content) => OneFileInverse(content);
    case Listing(entries) => ListingInverse(entries);
  }

  // ---------- The bytes themselves ----------

  /** Eight bytes, most significant first, announcing a length. */
  ghost predicate Announces(bs: seq<int>, n: nat) {
    && |bs| == 8
    && n == bs[0] * 0x100_0000_0000_0000 + bs[1] * 0x1_0000_0000_0000 + bs[2] * 0x100_0000_0000 + bs[3] * 0x1_0000_0000
            + bs[4] * 0x100_0000 + bs[5] * 0x1_0000 + bs[6] * 0x100 + bs[7]
  }

  lemma NumberMeans(bs: Bytes)
    requires |bs| == 8
    ensures Announces(bs, Number(bs))
  {
    hide Number;
    NumberMore(bs, 1);
    NumberMore(bs, 2);
    NumberMore(bs, 3);
    NumberMore(bs, 4);
    NumberMore(bs, 5);
    NumberMore(bs, 6);
    NumberMore(bs, 7);
    NumberMore(bs, 8);
    assert bs[..8] == bs && bs[..0] == [];
    NumberNone();
  }

  lemma NumberNone()
    ensures Number([]) == 0
  {
  }

  lemma NumberMore(bs: Bytes, k: nat)
    requires 1 <= k <= |bs|
    ensures Number(bs[..k]) == 256 * Number(bs[..k - 1]) + bs[k - 1]
  {
    assert bs[..k][..k - 1] == bs[..k - 1];
  }

  lemma LengthMeans(n: nat)
    requires n < 0x1_0000_0000_0000_0000
    ensures Announces(BigEndian(n, 8), n)
  {
    hide BigEndian, Number;
    LengthLimit();
    BigEndianInverse(n, 8);
    NumberMeans(BigEndian(n, 8));
  }

  lemma ZeroLength()
    ensures BigEndian(0, 8) == [0, 0, 0, 0, 0, 0, 0, 0]
  {
  }

  /** The four tags, character by character. */
  lemma Tags()
    ensures ROOT_FILE == [114, 111, 111, 116, 45, 102, 105, 108, 101]
    ensures ROOT_DIRECTORY == [114, 111, 111, 116, 45, 100, 105, 114, 101, 99, 116, 111, 114, 121]
    ensures DIRECTORY_ENTRY == [100, 105, 114, 101, 99, 116, 111, 114, 121, 45, 101, 110, 116, 114, 121]
    ensures FILE_ENTRY == [102, 105, 108, 101, 45, 101, 110, 116, 114, 121]
  {
  }

  /** What the digest is fed for a root: its tag, an empty value, and a file's size and content or the entries in order. */
  lemma RootLayout(content: Bytes, size: Bytes, entries: seq<Entry>)
    requires Announces(size, |content|)
    ensures Encode(OneFile(content)) == [114, 111, 111, 116, 45, 102, 105, 108, 101] + [0, 0, 0, 0, 0, 0, 0, 0] + size + content
    ensures Encode(Listing(entries))
      == [114, 111, 111, 116, 45, 100, 105, 114, 101, 99, 116, 111, 114, 121] + [0, 0, 0, 0, 0, 0, 0, 0] + EncodeEntries(entries)
  {
    hide BigEndian, Ascii, EncodeEntries, Announces;
    Tags();
    SizeUnique(|content|, size);
    ZeroLength();
    assert ROOT_FILE + ([0, 0, 0, 0, 0, 0, 0, 0] + []) + (size + content) == ROOT_FILE + [0, 0, 0, 0, 0, 0, 0, 0] + size + content;
  }

  /** The same for an entry: its tag, the path's length and the path, and a file's size and content. */
  lemma EntryLayout(path: Bytes, content: Bytes, a: Bytes, b: Bytes)
    requires Announces(a, |path|) && Announces(b, |content|)
    ensures EncodeEntry(Entry(path, None)) == [100, 105, 114, 101, 99, 116, 111, 114, 121, 45, 101, 110, 116, 114, 121] + a + path
    ensures EncodeEntry(Entry(path, Some(content))) == [102, 105, 108, 101, 45, 101, 110, 116, 114, 121] + a + path + b + content
  {
    hide BigEndian, Ascii, Announces;
    Tags();
    SizeUnique(|path|, a);
    SizeUnique(|content|, b);
    assert DIRECTORY_ENTRY + (a + path) == DIRECTORY_ENTRY + a + path;
    assert FILE_ENTRY + (a + path) + (b + content) == FILE_ENTRY + a + path + b + content;
  }

  /** A length is announced in one way only. */
  lemma SizeUnique(n: nat, size: Bytes)
    requires Announces(size, n)
    ensures BigEndian(n, 8) == size
  {
    hide BigEndian;
    assert n < 0x1_0000_0000_0000_0000;
    LengthMeans(n);
    var bs := BigEndian(n, 8);
    assert bs[0] == size[0] && bs[1] == size[1] && bs[2] == size[2] && bs[3] == size[3];
    assert bs[4] == size[4] && bs[5] == size[5] && bs[6] == size[6] && bs[7] == size[7];
  }
}
