/** The per-file work of `FileProcessor`: the exif filter, the metadata
    prompt, the tag set written back into the image, the basic record and
    the caption-then-metadata sequence of `process_file`. exiftool, PIL,
    stat, hashing and the generation service are inputs. */
module FileProcessing {
  import opened Wrappers
  import opened Values
  import opened Text
  import opened Configuration
  import opened LlmProcessor
  import opened Cleaning

  // ---------------------------------------------------------------------
  // extract_exif_metadata

  /** A tag value as exiftool reports it: raw bytes, or any other value. */
  datatype TagValue = Binary(bytes: seq<bv8>) | Value(v: Json)

  /** The outcome of reading a file's tags: exiftool's tag list in its
      order, or a failure, which `extract_exif_metadata` catches. */
  datatype ExifRead = ExifFailed | ExifTags(tags: seq<(string, TagValue)>)

  /** Values whose text is this long or longer are dropped. */
  const MaxTagText: nat := 1000

  /** The tags `extract_exif_metadata` keeps: not bytes, and a text shorter
      than `MaxTagText`, in their original order. */
  function FilterTags(tags: seq<(string, TagValue)>, lib: JsonLib): (r: seq<(string, Json)>)
    ensures |r| <= |tags|
    ensures forall e :: e in r <==> (e.0, Value(e.1)) in tags && |Str(lib, e.1)| < MaxTagText
  {
    if tags == [] then []
    else
      var rest := FilterTags(tags[1..], lib);
      assert forall t :: t in tags <==> t == tags[0] || t in tags[1..];
      match tags[0].1
      case Binary(_) => rest
      case Value(v) => if |Str(lib, v)| < MaxTagText then [(tags[0].0, v)] + rest else rest
  }

  /** A dict built from an item list, later items winning. */
  function ToMap(es: seq<(string, Json)>): (m: map<string, Json>)
    ensures forall k :: k in m <==> exists v :: (k, v) in es
    ensures es != [] ==> m[es[|es| - 1].0] == es[|es| - 1].1
  {
    if es == [] then map[]
    else
      var init := es[..|es| - 1];
      assert forall e :: e in es <==> e in init || e == es[|es| - 1];
      ToMap(init)[es[|es| - 1].0 := es[|es| - 1].1]
  }

  /** Every key maps to the value of its last entry: a later duplicate wins. */
  lemma {:induction false} ToMapLastWins(es: seq<(string, Json)>)
    ensures forall i :: 0 <= i < |es| && LastWithKey(es, i) ==> ToMap(es)[es[i].0] == es[i].1
  {
    if es != [] {
      var init := es[..|es| - 1];
      var last := es[|es| - 1];
      ToMapLastWins(init);
      assert ToMap(es) == ToMap(init)[last.0 := last.1];
      forall i | 0 <= i < |es| - 1 && LastWithKey(es, i)
        ensures ToMap(es)[es[i].0] == es[i].1
      {
        assert init[i] == es[i] && last.0 != es[i].0;
        assert LastWithKey(init, i);
      }
    }
  }

  /** No entry after `i` has the key of entry `i`. */
  predicate LastWithKey(es: seq<(string, Json)>, i: nat)
    requires i < |es|
  {
    forall j :: i < j < |es| ==> es[j].0 != es[i].0
  }

  /** The kept entries, as `exif_metadata.get("exif_metadata", {})` lists them. */
  function Entries(exif: ExifRead, lib: JsonLib): seq<(string, Json)>
  {
    match exif
    case ExifFailed => []
    case ExifTags(tags) => FilterTags(tags, lib)
  }

  /** `extract_exif_metadata`: `{"exif_metadata": {...}}` with the kept
      tags, or `{}` when exiftool failed. */
  function ExifRecord(exif: ExifRead, lib: JsonLib): (m: map<string, Json>)
    ensures exif.ExifFailed? ==> m == map[]
    ensures exif.ExifTags? ==> m.Keys == {"exif_metadata"} && m["exif_metadata"].JObj?
    ensures exif.ExifTags? ==> forall k :: k in m["exif_metadata"].fields <==>
      exists v :: (k, Value(v)) in exif.tags && |Str(lib, v)| < MaxTagText
    ensures exif.ExifTags? ==> var kept := FilterTags(exif.tags, lib);
      forall i :: 0 <= i < |kept| && LastWithKey(kept, i) ==> m["exif_metadata"].fields[kept[i].0] == kept[i].1
  {
    match exif
    case ExifFailed => map[]
    case ExifTags(tags) =>
      var kept := FilterTags(tags, lib);
      assert forall k, v :: (k, v) in kept <==> (k, Value(v)) in tags && |Str(lib, v)| < MaxTagText;
      ToMapLastWins(kept);
      map["exif_metadata" := JObj(ToMap(kept))]
  }

  // ---------------------------------------------------------------------
  // create_metadata_prompt

  /** Reduced keys that are never listed in the prompt. */
  const ReservedKeys: set<string> := {"Keywords", "Description", "Title", "Subject", "Caption"}

  /** `key.split(':')[-1]`: a group-qualified tag name without its group. */
  function CleanKey(key: string): (r: string)
    ensures ':' !in r
  {
    AfterLast(key, ':')
  }

  /** The cleaned key is what follows the last `:` of the key: a suffix
      without `:`, preceded by a `:` unless it is the whole key. */
  lemma CleanKeyShape(key: string)
    ensures ':' !in CleanKey(key)
    ensures |CleanKey(key)| <= |key| && CleanKey(key) == key[|key| - |CleanKey(key)|..]
    ensures CleanKey(key) != key ==> key[|key| - |CleanKey(key)| - 1] == ':'
  {
    AfterLastShape(key, ':');
  }

  /** The line an entry adds to the prompt. */
  function EntryLine(e: (string, Json), lib: JsonLib): string
  {
    if CleanKey(e.0) in ReservedKeys then "" else CleanKey(e.0) + " is " + Str(lib, e.1) + "\n"
  }

  /** The lines the prompt loop appends for a list of entries. */
  function Listing(es: seq<(string, Json)>, lib: JsonLib): string
  {
    if es == [] then "" else Listing(es[..|es| - 1], lib) + EntryLine(es[|es| - 1], lib)
  }

  /** The listing of a concatenation is the concatenation of the listings. */
  lemma {:induction false} ListingAppend(a: seq<(string, Json)>, b: seq<(string, Json)>, lib: JsonLib)
    ensures Listing(a + b, lib) == Listing(a, lib) + Listing(b, lib)
  {
    if b == [] {
      assert a + b == a;
    } else {
      var b' := b[..|b| - 1];
      assert (a + b)[..|a + b| - 1] == a + b';
      ListingAppend(a, b', lib);
      Associative(Listing(a, lib), Listing(b', lib), EntryLine(b[|b| - 1], lib));
    }
  }

  lemma ListingSingle(e: (string, Json), lib: JsonLib)
    ensures Listing([e], lib) == EntryLine(e, lib)
  {
    assert [e][..0] == [];
  }

  /** The listing around one entry. */
  lemma ListingSplit(a: seq<(string, Json)>, e: (string, Json), b: seq<(string, Json)>, lib: JsonLib)
    ensures Listing(a + [e] + b, lib) == Listing(a, lib) + EntryLine(e, lib) + Listing(b, lib)
  {
    ListingAppend(a + [e], b, lib);
    ListingAppend(a, [e], lib);
    ListingSingle(e, lib);
  }

  /** An entry's line appended to a text. */
  lemma EntryText(x: string, e: (string, Json), lib: JsonLib)
    ensures CleanKey(e.0) in ReservedKeys ==> x + EntryLine(e, lib) == x
    ensures CleanKey(e.0) !in ReservedKeys ==> x + EntryLine(e, lib) == x + CleanKey(e.0) + " is " + Str(lib, e.1) + "\n"
  {
  }

  /** Concatenation regroups. */
  lemma Associative(a: string, b: string, c: string)
    ensures a + (b + c) == (a + b) + c
  {
  }

  /** The listing of one more entry. */
  lemma ListingStep(es: seq<(string, Json)>, i: nat, lib: JsonLib)
    requires i < |es|
    ensures Listing(es[..i + 1], lib) == Listing(es[..i], lib) + EntryLine(es[i], lib)
  {
    assert es[..i + 1][..i] == es[..i];
  }

  /** Each entry contributes its own line in place: `<key> is <value>` with
      the group prefix removed, and nothing when the reduced key is reserved. */
  lemma ListingShape(a: seq<(string, Json)>, key: string, value: Json, b: seq<(string, Json)>, lib: JsonLib)
    ensures CleanKey(key) in ReservedKeys ==>
      Listing(a + [(key, value)] + b, lib) == Listing(a, lib) + Listing(b, lib)
    ensures CleanKey(key) !in ReservedKeys ==>
      Listing(a + [(key, value)] + b, lib) == Listing(a, lib) + CleanKey(key) + " is " + Str(lib, value) + "\n" + Listing(b, lib)
  {
    ListingSplit(a, (key, value), b, lib);
    EntryText(Listing(a, lib), (key, value), lib);
  }
  /** What a truthy caption appends. */
  function CaptionPart(caption: Json, lib: JsonLib): string
  {
    if Truthy(caption) then "\nCaption: " + Str(lib, caption) else ""
  }

  /** Right-stripping keeps a prefix that ends in a non-space character. */
  lemma RStripKeepsPrefix(p: string, s: string)
    requires p <= s && p != [] && !IsSpace(p[|p| - 1])
    ensures p <= RStrip(s)
  {
    assert !IsSpace(s[|p| - 1]);
  }

  /** Right-stripping a text that ends in a non-space character changes nothing. */
  lemma RStripFixed(s: string)
    requires s != [] && !IsSpace(s[|s| - 1])
    ensures RStrip(s) == s
  {
  }

  /** `create_metadata_prompt`: a header, one line per listed entry, the
      caption when it is truthy, trailing whitespace removed. */
  function MetadataPrompt(exif: ExifRead, caption: Json, lib: JsonLib): (r: string)
    ensures "Metadata:" <= r
    ensures !IsSpace(r[|r| - 1])
  {
    var s := "Metadata:\n" + Listing(Entries(exif, lib), lib) + CaptionPart(caption, lib);
    RStripKeepsPrefix("Metadata:", s);
    RStrip(s)
  }

  /** Without a truthy caption the prompt is the stripped listing. */
  lemma MetadataPromptWithoutCaption(exif: ExifRead, caption: Json, lib: JsonLib)
    requires !Truthy(caption)
    ensures MetadataPrompt(exif, caption, lib) == RStrip("Metadata:\n" + Listing(Entries(exif, lib), lib))
  {
    var head := "Metadata:\n" + Listing(Entries(exif, lib), lib);
    assert head + CaptionPart(caption, lib) == head;
  }

  /** A truthy caption that does not end in whitespace is appended after
      the listing and is the very end of the prompt. */
  lemma MetadataPromptWithCaption(exif: ExifRead, caption: Json, lib: JsonLib)
    requires Truthy(caption) && Str(lib, caption) != [] && !IsSpace(Str(lib, caption)[|Str(lib, caption)| - 1])
    ensures MetadataPrompt(exif, caption, lib) ==
      "Metadata:\n" + Listing(Entries(exif, lib), lib) + "\nCaption: " + Str(lib, caption)
  {
    var head := "Metadata:\n" + Listing(Entries(exif, lib), lib);
    var cap := Str(lib, caption);
    var s := head + CaptionPart(caption, lib);
    assert CaptionPart(caption, lib) == "\nCaption: " + cap;
    Associative(head, "\nCaption: ", cap);
    assert s[|s| - 1] == cap[|cap| - 1];
    RStripFixed(s);
  }

  // ---------------------------------------------------------------------
  // update_xmp_tags

  /** The tags `update_xmp_tags` may write. */
  const XmpTagNames: set<string> :=
    {"IPTC:Keywords", "XMP-dc:Title", "XMP-dc:Subject", "XMP-dc:Description", "Caption"}

  /** `if flag and key in llm_metadata: … = llm_metadata[key]`: the value to
      write, None when the rule does not apply, or the exception raised. */
  function TagEntry(flag: bool, llm: Json, key: string): (r: Result<Option<Json>, Exception>)
    ensures !flag ==> r == Ok(None)
    ensures flag && llm.JObj? ==> r == if key in llm.fields then Ok(Some(llm.fields[key])) else Ok(None)
    ensures flag && llm.JStr? ==> r == if Contains(llm.s, key) then Err(TypeError) else Ok(None)
    ensures flag && llm.JArr? ==> r == if JStr(key) in llm.items then Err(TypeError) else Ok(None)
    ensures flag && (llm.JNull? || llm.JBool? || llm.JNum?) ==> r == Err(TypeError)
  {
    if !flag then Ok(None)
    else
      match PyIn(key, llm)
      case Err(e) => Err(e)
      case Ok(present) =>
        if !present then Ok(None)
        else
          match PyGetItem(llm, key)
          case Err(e) => Err(e)
          case Ok(v) => Ok(Some(v))
  }

  /** Adds a tag when there is a value for it. */
  function Put(m: map<string, Json>, tag: string, e: Option<Json>): map<string, Json>
  {
    if e.Some? then m[tag := e.value] else m
  }

  /** The tag set `update_xmp_tags` builds, or the exception building it
      raises. Reply keys and written tags: Keywords to IPTC:Keywords,
      Title to XMP-dc:Title, Subject to XMP-dc:Subject, Summary to
      XMP-dc:Description; the caption goes to Caption when it is truthy. */
  function XmpTags(cfg: Config, llm: Json, caption: Json): (r: Result<map<string, Json>, Exception>)
    ensures r.Err? <==>
      || TagEntry(cfg.writeKeywords, llm, "Keywords").Err?
      || TagEntry(cfg.writeTitle, llm, "Title").Err?
      || TagEntry(cfg.writeSubject, llm, "Subject").Err?
      || TagEntry(cfg.writeDescription, llm, "Summary").Err?
    ensures r.Ok? ==> r.value.Keys <= XmpTagNames
    ensures r.Ok? ==> ("IPTC:Keywords" in r.value <==> TagEntry(cfg.writeKeywords, llm, "Keywords").value.Some?)
    ensures r.Ok? ==> ("XMP-dc:Title" in r.value <==> TagEntry(cfg.writeTitle, llm, "Title").value.Some?)
    ensures r.Ok? ==> ("XMP-dc:Subject" in r.value <==> TagEntry(cfg.writeSubject, llm, "Subject").value.Some?)
    ensures r.Ok? ==> ("XMP-dc:Description" in r.value <==> TagEntry(cfg.writeDescription, llm, "Summary").value.Some?)
    ensures r.Ok? ==> ("Caption" in r.value <==> cfg.writeCaption && Truthy(caption))
    ensures r.Ok? && "IPTC:Keywords" in r.value ==>
      r.value["IPTC:Keywords"] == TagEntry(cfg.writeKeywords, llm, "Keywords").value.value
    ensures r.Ok? && "XMP-dc:Title" in r.value ==>
      r.value["XMP-dc:Title"] == TagEntry(cfg.writeTitle, llm, "Title").value.value
    ensures r.Ok? && "XMP-dc:Subject" in r.value ==>
      r.value["XMP-dc:Subject"] == TagEntry(cfg.writeSubject, llm, "Subject").value.value
    ensures r.Ok? && "XMP-dc:Description" in r.value ==>
      r.value["XMP-dc:Description"] == TagEntry(cfg.writeDescription, llm, "Summary").value.value
    ensures r.Ok? && "Caption" in r.value ==> r.value["Caption"] == caption
  {
    var k := TagEntry(cfg.writeKeywords, llm, "Keywords");
    var t := TagEntry(cfg.writeTitle, llm, "Title");
    var s := TagEntry(cfg.writeSubject, llm, "Subject");
    var d := TagEntry(cfg.writeDescription, llm, "Summary");
    if k.Err? then Err(k.error)
    else if t.Err? then Err(t.error)
    else if s.Err? then Err(s.error)
    else if d.Err? then Err(d.error)
    else
      var c := if cfg.writeCaption && Truthy(caption) then Some(caption) else None;
      Ok(Put(Put(Put(Put(Put(map[], "IPTC:Keywords", k.value), "XMP-dc:Title", t.value),
        "XMP-dc:Subject", s.value), "XMP-dc:Description", d.value), "Caption", c))
  }

  /** For a dict reply tag building never raises, whatever the flags, and
      each rule's tag is written exactly when its flag is set and the
      reply holds its key, with the reply's value. */
  lemma XmpTagsOfDict(cfg: Config, llm: Json, caption: Json)
    requires llm.JObj?
    ensures XmpTags(cfg, llm, caption).Ok?
    ensures var tags := XmpTags(cfg, llm, caption).value;
      && ("IPTC:Keywords" in tags <==> cfg.writeKeywords && "Keywords" in llm.fields)
      && ("XMP-dc:Title" in tags <==> cfg.writeTitle && "Title" in llm.fields)
      && ("XMP-dc:Subject" in tags <==> cfg.writeSubject && "Subject" in llm.fields)
      && ("XMP-dc:Description" in tags <==> cfg.writeDescription && "Summary" in llm.fields)
      && ("IPTC:Keywords" in tags ==> tags["IPTC:Keywords"] == llm.fields["Keywords"])
      && ("XMP-dc:Title" in tags ==> tags["XMP-dc:Title"] == llm.fields["Title"])
      && ("XMP-dc:Subject" in tags ==> tags["XMP-dc:Subject"] == llm.fields["Subject"])
      && ("XMP-dc:Description" in tags ==> tags["XMP-dc:Description"] == llm.fields["Summary"])
  {
  }

  /** A reply left as text makes tag building raise exactly when an
      enabled rule's key occurs in the text, and otherwise gives at most
      the caption. */
  lemma XmpTagsOfText(cfg: Config, llm: Json, caption: Json)
    requires llm.JStr?
    ensures XmpTags(cfg, llm, caption).Err? <==>
      || (cfg.writeKeywords && Contains(llm.s, "Keywords"))
      || (cfg.writeTitle && Contains(llm.s, "Title"))
      || (cfg.writeSubject && Contains(llm.s, "Subject"))
      || (cfg.writeDescription && Contains(llm.s, "Summary"))
    ensures XmpTags(cfg, llm, caption).Ok? ==> XmpTags(cfg, llm, caption).value.Keys <= {"Caption"}
  {
  }

  /** A `set_tags` call: the file, the tags and the extra exiftool options. */
  datatype SetTagsCall = SetTagsCall(path: string, tags: map<string, Json>, params: seq<string>)

  /** The options passed when originals are overwritten. */
  const OverwriteParams: seq<string> := ["-P", "-overwrite_original"]

  /** `update_xmp_tags`: the `set_tags` call it issues, if any. Every
      exception inside (exiftool not starting, tag building raising) is
      caught and printed, so the outcome is only whether a call happens. */
  function XmpWrite(cfg: Config, filePath: string, llm: Json, caption: Json, toolAvailable: bool): (w: Option<SetTagsCall>)
    ensures w.None? <==> cfg.dryRun || !toolAvailable || XmpTags(cfg, llm, caption).Err?
    ensures w.Some? ==> w.value.path == filePath && w.value.tags == XmpTags(cfg, llm, caption).value
    ensures w.Some? ==> w.value.params == if cfg.overwrite then OverwriteParams else []
  {
    if !toolAvailable then None
    else
      match XmpTags(cfg, llm, caption)
      case Err(_) => None
      case Ok(tags) =>
        if cfg.dryRun then None
        else Some(SetTagsCall(filePath, tags, if cfg.overwrite then OverwriteParams else []))
  }

  // ---------------------------------------------------------------------
  // prepare_image_for_api

  /** What is sent for captioning: the file itself, the embedded preview,
      or a JPEG re-encoding made in memory. */
  datatype ImageSource = OriginalFile(path: string) | EmbeddedPreview(bytes: seq<bv8>) | Reencoded(bytes: seq<bv8>)

  /** What exiftool and PIL give for a file: whether exiftool lists an
      embedded JPEG (`JPEG:JPEGInterchangeFormat`), the bytes it extracts,
      and the re-encoding (None when the file cannot be decoded). */
  datatype ImageFile = ImageFile(hasEmbeddedTag: bool, embedded: seq<bv8>, reencoded: Option<seq<bv8>>)

  /** Types sent as they are. */
  const DirectTypes: set<string> := {"image/jpeg", "image/png"}

  /** `prepare_image_for_api`: JPEG and PNG files are sent as they are;
      any other file is first read by exiftool, whose failure (for instance
      when it is not installed) raises, uncaught; then a non-empty embedded
      preview is sent, else a re-encoding; a file that cannot be decoded
      raises. It never answers None. */
  function PrepareImage(mime: string, path: string, img: ImageFile, toolAvailable: bool): (r: Result<ImageSource, Exception>)
    ensures mime in DirectTypes ==> r == Ok(OriginalFile(path))
    ensures mime !in DirectTypes && !toolAvailable ==> r == Err(ExifToolError)
    ensures mime !in DirectTypes && toolAvailable && img.hasEmbeddedTag && img.embedded != [] ==>
      r == Ok(EmbeddedPreview(img.embedded))
    ensures r.Ok? && r.value.Reencoded? ==> img.reencoded == Some(r.value.bytes)
    ensures r.Err? <==>
      && mime !in DirectTypes
      && (!toolAvailable || (!(img.hasEmbeddedTag && img.embedded != []) && img.reencoded.None?))
    ensures r.Err? && toolAvailable ==> r.error == ImageDecodeError
  {
    if mime in DirectTypes then Ok(OriginalFile(path))
    else if !toolAvailable then Err(ExifToolError)
    else if img.hasEmbeddedTag && img.embedded != [] then Ok(EmbeddedPreview(img.embedded))
    else
      match img.reencoded
      case Some(b) => Ok(Reencoded(b))
      case None => Err(ImageDecodeError)
  }

  // ---------------------------------------------------------------------
  // extract_basic_metadata

  /** What stat, pathlib and hashing give for a file: the path relative to
      the indexed directory, the size, the two `time.ctime` stamps and the
      xxh64 digest. */
  datatype FileFacts = FileFacts(relativePath: string, size: nat, created: string, modified: string, hash: string)

  /** The keys of the basic record. */
  const BasicKeys: set<string> := {"filename", "relative_path", "size", "created", "modified", "extension", "file_hash"}

  /** A lower-cased suffix is empty or starts with its dot. */
  lemma ExtensionShape(name: string)
    ensures Lower(Suffix(name)) == [] || Lower(Suffix(name))[0] == '.'
  {
  }

  /** `extract_basic_metadata`: name, relative path, size, stamps, the
      lower-cased suffix and the digest. */
  function BasicMetadata(filePath: string, facts: FileFacts): (m: map<string, Json>)
    ensures m.Keys == BasicKeys
    ensures m["filename"] == JStr(Basename(filePath)) && '/' !in m["filename"].s
    ensures m["relative_path"] == JStr(facts.relativePath)
    ensures m["extension"].JStr? && (m["extension"].s == [] || m["extension"].s[0] == '.')
  {
    var name := Basename(filePath);
    var extension := Lower(Suffix(name));
    ExtensionShape(name);
    map[
      "filename" := JStr(name),
      "relative_path" := JStr(facts.relativePath),
      "size" := JNum(facts.size),
      "created" := JStr(facts.created),
      "modified" := JStr(facts.modified),
      "extension" := JStr(extension),
      "file_hash" := JStr(facts.hash)]
  }

  // ---------------------------------------------------------------------
  // process_file

  /** The generation service: the caption for an image and a prompt, and
      the text generated for a prompt; None when a request failed. */
  datatype Service = Service(interrogate: (ImageSource, string) -> Json, generate: string -> Json)

  /** What `process_file` produces: the caption, the structured reply and
      the tag write it issued. */
  datatype Processed = Processed(caption: Json, llmMetadata: Json, write: Option<SetTagsCall>)

  /** The record `process_file` returns. */
  function ProcessedRecord(p: Processed): (m: map<string, Json>)
    ensures m.Keys == {"llm_metadata", "Caption"}
    ensures m["llm_metadata"] == p.llmMetadata && m["Caption"] == p.caption
  {
    map["llm_metadata" := p.llmMetadata, "Caption" := p.caption]
  }

  /** The cleaned caption `process_file` obtains, or the exception raised
      before it: an undecodable image, or no template (TypeError). */
  function CaptionStep(proc: Processor, filePath: string, mime: string, img: ImageFile,
                       svc: Service, lib: JsonLib, toolAvailable: bool): (r: Result<Json, Exception>)
    ensures r.Err? <==> PrepareImage(mime, filePath, img, toolAvailable).Err? || proc.model.None?
    ensures r.Ok? ==> r.value == CleanString(svc.interrogate(PrepareImage(mime, filePath, img, toolAvailable).value,
      GetPrompt(proc.model, proc.imageInstruction, "").value), lib)
  {
    match PrepareImage(mime, filePath, img, toolAvailable)
    case Err(e) => Err(e)
    case Ok(image) =>
      match GetPrompt(proc.model, proc.imageInstruction, "")
      case Err(e) => Err(e)
      case Ok(prompt) => Ok(CleanString(svc.interrogate(image, prompt), lib))
  }

  /** `process_file` after the caption: the structured reply, cleaned, and
      the tag write; `clean_json` raises for a reply that is a number, a
      boolean or a list. */
  function MetadataStep(cfg: Config, proc: Processor, filePath: string, exif: ExifRead, caption: Json,
                        svc: Service, lib: JsonLib, toolAvailable: bool): (r: Result<Processed, Exception>)
    requires proc.model.Some?
    ensures r.Ok? ==> r.value.caption == caption
    ensures r.Ok? ==> r.value.write == XmpWrite(cfg, filePath, r.value.llmMetadata, caption, toolAvailable)
    ensures r.Err? <==> CleanJson(svc.generate(
      GetPrompt(proc.model, MetadataInstruction, MetadataPrompt(exif, caption, lib)).value), lib).Err?
    ensures r.Ok? ==> r.value.llmMetadata == CleanJson(svc.generate(
      GetPrompt(proc.model, MetadataInstruction, MetadataPrompt(exif, caption, lib)).value), lib).value
  {
    var reply := CleanJson(svc.generate(
      GetPrompt(proc.model, MetadataInstruction, MetadataPrompt(exif, caption, lib)).value), lib);
    if reply.Err? then Err(reply.error)
    else Ok(Processed(caption, reply.value, XmpWrite(cfg, filePath, reply.value, caption, toolAvailable)))
  }

  /** `process_file`: the caption step, then the metadata step. */
  function Process(cfg: Config, proc: Processor, filePath: string, exif: ExifRead, mime: string, img: ImageFile,
                   svc: Service, lib: JsonLib, toolAvailable: bool): (r: Result<Processed, Exception>)
    ensures r.Err? <==>
      || CaptionStep(proc, filePath, mime, img, svc, lib, toolAvailable).Err?
      || MetadataStep(cfg, proc, filePath, exif, CaptionStep(proc, filePath, mime, img, svc, lib, toolAvailable).value, svc, lib, toolAvailable).Err?
    ensures r.Ok? ==> r.value.caption == CaptionStep(proc, filePath, mime, img, svc, lib, toolAvailable).value
  {
    match CaptionStep(proc, filePath, mime, img, svc, lib, toolAvailable)
    case Err(e) => Err(e)
    case Ok(caption) => MetadataStep(cfg, proc, filePath, exif, caption, svc, lib, toolAvailable)
  }

  /** A successful run returns the cleaned caption and, as `llm_metadata`,
      the cleaned answer to the metadata prompt built from the EXIF listing
      and that caption. */
  lemma ProcessStoresReply(cfg: Config, proc: Processor, filePath: string, exif: ExifRead, mime: string,
                           img: ImageFile, svc: Service, lib: JsonLib, toolAvailable: bool)
    requires Process(cfg, proc, filePath, exif, mime, img, svc, lib, toolAvailable).Ok?
    ensures proc.model.Some? && CaptionStep(proc, filePath, mime, img, svc, lib, toolAvailable).Ok?
    ensures var caption := CaptionStep(proc, filePath, mime, img, svc, lib, toolAvailable).value;
      var reply := CleanJson(svc.generate(
        GetPrompt(proc.model, MetadataInstruction, MetadataPrompt(exif, caption, lib)).value), lib);
      && reply.Ok?
      && Process(cfg, proc, filePath, exif, mime, img, svc, lib, toolAvailable).value
         == Processed(caption, reply.value, XmpWrite(cfg, filePath, reply.value, caption, toolAvailable))
  {
  }

  /** Without a template `process_file` always raises TypeError. */
  lemma ProcessWithoutTemplate(cfg: Config, proc: Processor, filePath: string, exif: ExifRead, mime: string,
                               img: ImageFile, svc: Service, lib: JsonLib, toolAvailable: bool)
    requires proc.model.None? && PrepareImage(mime, filePath, img, toolAvailable).Ok?
    ensures Process(cfg, proc, filePath, exif, mime, img, svc, lib, toolAvailable) == Err(TypeError)
  {
  }

  /** A successful run never writes tags under dry run, and the written
      caption is the cleaned caption. */
  lemma ProcessWrites(cfg: Config, proc: Processor, filePath: string, exif: ExifRead, mime: string,
                      img: ImageFile, svc: Service, lib: JsonLib, toolAvailable: bool)
    requires Process(cfg, proc, filePath, exif, mime, img, svc, lib, toolAvailable).Ok?
    ensures var p := Process(cfg, proc, filePath, exif, mime, img, svc, lib, toolAvailable).value;
      && (cfg.dryRun ==> p.write.None?)
      && (p.write.Some? && "Caption" in p.write.value.tags ==> p.write.value.tags["Caption"] == p.caption)
  {
  }

  /** The file processor. `process_file` records the MIME type and the
      caption of the file last processed in two fields. */
  class FileProcessor {
    const config: Config
    const processor: Processor
    var mimeType: string
    var caption: Json

    constructor (config: Config, processor: Processor)
      ensures this.config == config && this.processor == processor
      ensures mimeType == "" && caption == JNull
    {
      this.config := config;
      this.processor := processor;
      mimeType := "";
      caption := JNull;
    }

    /** The prompt loop: one line per kept entry, then the caption. */
    method CreateMetadataPrompt(exif: ExifRead, caption: Json, lib: JsonLib) returns (prompt: string)
      ensures prompt == MetadataPrompt(exif, caption, lib)
    {
      prompt := "Metadata:\n";
      var entries := Entries(exif, lib);
      var i := 0;
      while i < |entries|
        invariant 0 <= i <= |entries|
        invariant prompt == "Metadata:\n" + Listing(entries[..i], lib)
      {
        var (key, value) := entries[i];
        EntryText(prompt, (key, value), lib);
        ListingStep(entries, i, lib);
        Associative("Metadata:\n", Listing(entries[..i], lib), EntryLine((key, value), lib));
        var cleanKey := AfterLast(key, ':');
        if cleanKey !in ReservedKeys {
          prompt := prompt + cleanKey + " is " + Str(lib, value) + "\n";
        }
        i := i + 1;
      }
      assert entries[..i] == entries;
      if Truthy(caption) {
        Associative(prompt, "\nCaption: ", Str(lib, caption));
        prompt := prompt + "\nCaption: " + Str(lib, caption);
      } else {
        assert prompt + CaptionPart(caption, lib) == prompt;
      }
      prompt := RStrip(prompt);
    }

    /** One rule of the tag dict: adds `tag` when `flag` is set and the
        reply holds `key`. */
    static method AddTag(tags: map<string, Json>, flag: bool, llm: Json, key: string, tag: string)
      returns (r: Result<map<string, Json>, Exception>)
      ensures TagEntry(flag, llm, key).Err? ==> r == Err(TagEntry(flag, llm, key).error)
      ensures TagEntry(flag, llm, key).Ok? ==> r == Ok(Put(tags, tag, TagEntry(flag, llm, key).value))
    {
      r := Ok(tags);
      if flag {
        var present := PyIn(key, llm);
        if present.Err? {
          return Err(present.error);
        }
        if present.value {
          var value := PyGetItem(llm, key);
          if value.Err? {
            return Err(value.error);
          }
          r := Ok(tags[tag := value.value]);
        }
      }
    }

    /** The tag dict `update_xmp_tags` fills rule by rule, or the
        exception a rule raises. */
    static method BuildXmpTags(cfg: Config, llm: Json, caption: Json) returns (r: Result<map<string, Json>, Exception>)
      ensures r == XmpTags(cfg, llm, caption)
    {
      r := AddTag(map[], cfg.writeKeywords, llm, "Keywords", "IPTC:Keywords");
      if r.Err? { return; }
      r := AddTag(r.value, cfg.writeTitle, llm, "Title", "XMP-dc:Title");
      if r.Err? { return; }
      r := AddTag(r.value, cfg.writeSubject, llm, "Subject", "XMP-dc:Subject");
      if r.Err? { return; }
      r := AddTag(r.value, cfg.writeDescription, llm, "Summary", "XMP-dc:Description");
      if r.Err? { return; }
      if cfg.writeCaption && Truthy(caption) {
        r := Ok(r.value["Caption" := caption]);
      }
    }

    /** `update_xmp_tags`: builds the tag dict, then calls `set_tags`
        unless this is a dry run; anything raised is caught. */
    method UpdateXmpTags(filePath: string, llm: Json, toolAvailable: bool) returns (w: Option<SetTagsCall>)
      ensures w == XmpWrite(config, filePath, llm, caption, toolAvailable)
    {
      if !toolAvailable {
        return None;
      }
      var tags := BuildXmpTags(config, llm, caption);
      if tags.Err? || config.dryRun {
        return None;
      }
      var params := if config.overwrite then OverwriteParams else [];
      w := Some(SetTagsCall(filePath, tags.value, params));
    }

    /** `process_file`: records the MIME type, captions the prepared image,
        asks for the structured metadata and writes the tags. */
    method ProcessFile(filePath: string, exif: ExifRead, mime: string, img: ImageFile,
                       svc: Service, lib: JsonLib, toolAvailable: bool) returns (r: Result<Processed, Exception>)
      modifies this
      ensures r == Process(config, processor, filePath, exif, mime, img, svc, lib, toolAvailable)
      ensures mimeType == mime
      ensures caption == match CaptionStep(processor, filePath, mime, img, svc, lib, toolAvailable)
        case Ok(c) => c
        case Err(_) => old(caption)
    {
      mimeType := mime;
      var image := PrepareImage(mimeType, filePath, img, toolAvailable);
      if image.Err? {
        return Err(image.error);
      }
      var capPrompt := GetPrompt(processor.model, processor.imageInstruction, "");
      if capPrompt.Err? {
        return Err(capPrompt.error);
      }
      caption := CleanString(svc.interrogate(image.value, capPrompt.value), lib);
      var description := CreateMetadataPrompt(exif, caption, lib);
      var prompt := GetPrompt(processor.model, MetadataInstruction, description);
      var llm := CleanJson(svc.generate(prompt.value), lib);
      if llm.Err? {
        return Err(llm.error);
      }
      var write := UpdateXmpTags(filePath, llm.value, toolAvailable);
      r := Ok(Processed(caption, llm.value, write));
    }
  }
}
