/** app/services/process_file.py: the upload directory, the file-naming
    scheme, the embedding call and the chunking loop of FileUploadHandler.

    The PDF extractor and the embedding service are parameters: `Extractor`
    gives, for a path, the elements partition_pdf would return (each already
    rendered with str()) or the exception it raises; `Embedder` gives, for a
    text, the embedding the service returns or the reason it failed. */
module ProcessFile {
  import opened Base
  import opened Chunking

  type Extractor = string -> Result<seq<string>, Exc>
  type Embedder = string -> Result<Vector, string>

  /** The chunk size parse_file uses unless told otherwise. */
  const DefaultChunkSize: int := 1500

  /** An uploaded file as the web framework hands it over; `filename` is None
      when the object has no filename attribute. */
  datatype UploadFile = UploadFile(filename: Option<string>)

  datatype UploadInfo = UploadInfo(fileId: string, fileName: string)

  datatype FileAttributes = FileAttributes(filePath: string, fileName: string)

  /** One entry of the dict parse_file returns, under key `id`. */
  datatype ChunkRecord = ChunkRecord(
    id: string,
    fileId: string,
    fileName: string,
    text: string,
    totalChars: nat,
    embedding: Vector)

  /** The paths of the files on disk. */
  class FileSystem {
    var files: set<string>

    constructor (files: set<string>)
      ensures this.files == files
    {
      this.files := files;
    }
  }

  /** os.path.join(dir, name) on POSIX: an absolute `name` replaces `dir`;
      otherwise a separator is put between them unless `dir` is empty or
      already ends with one. */
  function PathJoin(dir: string, name: string): (p: string)
    ensures |name| <= |p| && p[|p| - |name|..] == name
    ensures (name == [] || name[0] != '/') ==> dir <= p
  {
    if name != [] && name[0] == '/' then name
    else if dir == [] || dir[|dir| - 1] == '/' then dir + name
    else dir + "/" + name
  }

  /** Where the file with the given id is stored: <upload_dir>/<file_id>.pdf,
      the same name for writing (upload) and for looking up (get_file_path). */
  function UploadPath(uploadDir: string, fileId: string): string {
    PathJoin(uploadDir, fileId + ".pdf")
  }

  /** What PathJoin puts before a relative name. */
  function DirPrefix(dir: string): string {
    if dir == [] || dir[|dir| - 1] == '/' then dir else dir + "/"
  }

  lemma {:induction false} UploadPathShape(uploadDir: string, fileId: string)
    requires fileId == [] || fileId[0] != '/'
    ensures UploadPath(uploadDir, fileId) == DirPrefix(uploadDir) + fileId + ".pdf"
  {
    var name := fileId + ".pdf";
    assert name[0] != '/' by {
      if fileId == [] { assert name == ".pdf"; } else { assert name[0] == fileId[0]; }
    }
    assert DirPrefix(uploadDir) + fileId + ".pdf" == DirPrefix(uploadDir) + name;
  }

  /** Two relative file ids never share a stored file. */
  lemma {:induction false} UploadPathInjective(uploadDir: string, a: string, b: string)
    requires a == [] || a[0] != '/'
    requires b == [] || b[0] != '/'
    requires UploadPath(uploadDir, a) == UploadPath(uploadDir, b)
    ensures a == b
  {
    UploadPathShape(uploadDir, a);
    UploadPathShape(uploadDir, b);
    var d := DirPrefix(uploadDir);
    var p := d + a + ".pdf";
    assert p == d + (a + ".pdf") && p == d + (b + ".pdf");
    assert p[|d|..] == a + ".pdf" && p[|d|..] == b + ".pdf";
    assert |a| == |b|;
    assert (a + ".pdf")[..|a|] == a && (b + ".pdf")[..|b|] == b;
  }

  /** generate_embeddings: one call to the embedding service; any failure
      becomes an HTTP 500. */
  function GenerateEmbeddings(embed: Embedder, text: string): (r: Result<Vector, Exc>)
    ensures r.Success? <==> embed(text).Success?
    ensures r.Success? ==> r.value == embed(text).value
    ensures r.Failure? ==> r.error == HttpException(500)
  {
    match embed(text)
    case Success(v) => Success(v)
    case Failure(_) => Failure(HttpException(500))
  }

  /** The chunk records for the given texts, embedded in order; the first
      failing embedding aborts the whole construction. */
  function BuildChunks(fileId: string, fileName: string, texts: seq<string>, embed: Embedder)
    : (r: Result<seq<ChunkRecord>, Exc>)
    ensures r.Failure? ==> r.error == HttpException(500)
    ensures r.Success? ==> |r.value| == |texts|
    decreases |texts|
  {
    if texts == [] then Success([])
    else
      var t := texts[|texts| - 1];
      match BuildChunks(fileId, fileName, texts[..|texts| - 1], embed)
      case Failure(e) => Failure(e)
      case Success(init) =>
        match GenerateEmbeddings(embed, t)
        case Failure(e) => Failure(e)
        case Success(v) =>
          Success(init + [ChunkRecord(ChunkKey(|texts|), fileId, fileName, t, |t|, v)])
  }

  /** The construction succeeds exactly when every text embeds, and then the
      j-th record holds the j-th text, its length, its embedding and the key
      chunk_<j+1>. */
  lemma {:induction false} BuildChunksMeaning(fileId: string, fileName: string, texts: seq<string>, embed: Embedder)
    ensures var r := BuildChunks(fileId, fileName, texts, embed);
            && (r.Success? <==> forall j :: 0 <= j < |texts| ==> embed(texts[j]).Success?)
            && (r.Success? ==>
                  forall j :: 0 <= j < |texts| ==>
                    r.value[j] == ChunkRecord(ChunkKey(j + 1), fileId, fileName, texts[j],
                                              |texts[j]|, embed(texts[j]).value))
    decreases |texts|
  {
    if texts != [] {
      var init := texts[..|texts| - 1];
      var t := texts[|texts| - 1];
      BuildChunksMeaning(fileId, fileName, init, embed);
      assert forall j :: 0 <= j < |init| ==> texts[j] == init[j];
    }
  }

  /** Every chunk of one parse carries its own key, so the dict keeps all of
      them in insertion order. */
  lemma {:induction false} ChunkIdsDistinct(fileId: string, fileName: string, texts: seq<string>, embed: Embedder)
    requires BuildChunks(fileId, fileName, texts, embed).Success?
    ensures var cs := BuildChunks(fileId, fileName, texts, embed).value;
            forall i, j :: 0 <= i < j < |cs| ==> cs[i].id != cs[j].id
  {
    var cs := BuildChunks(fileId, fileName, texts, embed).value;
    BuildChunksMeaning(fileId, fileName, texts, embed);
    forall i, j | 0 <= i < j < |cs|
      ensures cs[i].id != cs[j].id
    {
      ChunkKeysDistinct(i + 1, j + 1);
    }
  }

  /** Python's dict.get(key, default). */
  function DictGet(m: map<string, string>, key: string, default: string): (v: string)
    ensures key in m ==> v == m[key]
    ensures key !in m ==> v == default
  {
    if key in m then m[key] else default
  }

  /** Appending one embedded text to a successful construction. */
  lemma {:induction false} BuildChunksSnoc(fileId: string, fileName: string, texts: seq<string>, t: string,
                        embed: Embedder, chunks: seq<ChunkRecord>)
    requires BuildChunks(fileId, fileName, texts, embed) == Success(chunks)
    requires embed(t).Success?
    ensures BuildChunks(fileId, fileName, texts + [t], embed)
            == Success(chunks + [ChunkRecord(ChunkKey(|texts| + 1), fileId, fileName, t, |t|, embed(t).value)])
  {
    assert (texts + [t])[..|texts|] == texts;
  }

  /** What parse_file returns or raises, given the files on disk. */
  function ParseFileSpec(files: set<string>, uploadDir: string, fileId: string, chunkSize: int,
                         extract: Extractor, embed: Embedder): (r: Result<seq<ChunkRecord>, Exc>)
    ensures var path := UploadPath(uploadDir, fileId);
            && (path !in files ==> r == Failure(FileNotFoundError(fileId)))
            && (path in files && extract(path).Failure? ==> r == Failure(extract(path).error))
            && (path in files && extract(path).Success? ==>
                  && (r.Failure? ==> r.error == HttpException(500))
                  && (r.Success? ==> (r.value == [] <==> Kept(extract(path).value) == [])))
  {
    var path := UploadPath(uploadDir, fileId);
    if path !in files then Failure(FileNotFoundError(fileId))
    else
      match extract(path)
      case Failure(e) => Failure(e)
      case Success(elements) =>
        BuildChunks(fileId, "unknown", ChunkTexts(Kept(elements), chunkSize), embed)
  }

  lemma {:induction false} KeptStep(elements: seq<string>, i: nat)
    requires i < |elements|
    ensures Strip(elements[i]) == "" ==> Kept(elements[..i + 1]) == Kept(elements[..i])
    ensures Strip(elements[i]) != "" ==> Kept(elements[..i + 1]) == Kept(elements[..i]) + [Strip(elements[i])]
  {
    assert elements[..i + 1][..i] == elements[..i];
    assert Kept(elements[..i]) + [] == Kept(elements[..i]);
  }

  /** One failing embedding makes the whole construction fail. */
  lemma {:induction false} BuildChunksFailsAt(fileId: string, fileName: string, texts: seq<string>, embed: Embedder, j: nat)
    requires j < |texts| && embed(texts[j]).Failure?
    ensures BuildChunks(fileId, fileName, texts, embed) == Failure(HttpException(500))
  {
    BuildChunksMeaning(fileId, fileName, texts, embed);
  }

  lemma {:induction false} KeptSplit(elements: seq<string>, i: nat)
    requires i <= |elements|
    ensures Kept(elements) == Kept(elements[..i]) + Kept(elements[i..])
  {
    var a, b := elements[..i], elements[i..];
    KeptAppend(a, b);
    calc {
      Kept(elements);
    == { assert elements == a + b; }
      Kept(a + b);
    }
  }

  /** A chunk whose embedding fails while the loop runs makes the whole parse
      fail, whatever the remaining elements are. */
  lemma {:induction false} FlushFailureIsFinal(elements: seq<string>, i: nat, size: int, fileId: string, fileName: string,
                            embed: Embedder)
    requires i < |elements|
    requires Strip(elements[i]) != ""
    requires var p := Pack(Kept(elements[..i]), size);
             && |Accumulated(p.open)| + |Strip(elements[i])| + 1 > size
             && embed(Join(p.open)).Failure?
    ensures BuildChunks(fileId, fileName, ChunkTexts(Kept(elements), size), embed)
            == Failure(HttpException(500))
  {
    var kept := Kept(elements[..i]);
    var e := Strip(elements[i]);
    var rest := Kept(elements[i + 1..]);
    KeptStep(elements, i);
    KeptSplit(elements, i + 1);
    FlushedGroupIsChunk(kept, e, rest, size);
    var n := |Pack(kept, size).closed|;
    BuildChunksFailsAt(fileId, fileName, ChunkTexts(Kept(elements), size), embed, n);
  }

  /** The texts once the loop is over: the closed groups, then the group left
      in the accumulator if it holds anything. */
  lemma {:induction false} FinalTexts(kept: seq<string>, size: int)
    requires AllClean(kept)
    ensures var p := Pack(kept, size);
            && Strip(Accumulated(p.open)) == Join(p.open)
            && ChunkTexts(kept, size)
               == JoinEach(p.closed) + (if Join(p.open) == "" then [] else [Join(p.open)])
  {
    var p := Pack(kept, size);
    OpenClean(kept, size);
    StripAccumulated(p.open);
    JoinNonEmpty(p.open);
    if p.open != [] {
      assert JoinEach(p.closed + [p.open]) == JoinEach(p.closed) + [Join(p.open)];
    }
  }

  class FileUploadHandler {
    const file: Option<UploadFile>
    const uploadDir: string
    /** Meant to map file ids to original names; nothing ever writes it. */
    const fileMetadata: map<string, string> := map[]

    constructor (file: Option<UploadFile>, uploadDir: string)
      ensures this.file == file && this.uploadDir == uploadDir
    {
      this.file := file;
      this.uploadDir := uploadDir;
    }

    /** upload: stores the file under a fresh id and reports the original name. */
    method Upload(fs: FileSystem, uuids: UuidSource) returns (r: Result<UploadInfo, Exc>)
      requires uuids.Valid()
      modifies fs, uuids
      ensures uuids.Valid()
      ensures file.None? ==>
                && r == Failure(ValueError)
                && fs.files == old(fs.files) && uuids.drawn == old(uuids.drawn)
      ensures file.Some? ==>
                && r.Success?
                && r.value.fileId !in old(uuids.drawn)
                && uuids.drawn == old(uuids.drawn) + [r.value.fileId]
                && fs.files == old(fs.files) + {UploadPath(uploadDir, r.value.fileId)}
                && r.value.fileName == (match file.value.filename
                                        case Some(n) => n
                                        case None => "unknown")
    {
      if file.None? {
        return Failure(ValueError);
      }
      var fileId := uuids.Next();
      fs.files := fs.files + {UploadPath(uploadDir, fileId)};
      var name := match file.value.filename case Some(n) => n case None => "unknown";
      r := Success(UploadInfo(fileId, name));
    }

    /** get_file_path: the stored file for an id, or FileNotFoundError. The
        reported name is always "unknown", because fileMetadata is empty. */
    function GetFilePath(fs: FileSystem, fileId: string): (r: Result<FileAttributes, Exc>)
      reads fs
      ensures r.Success? <==> UploadPath(uploadDir, fileId) in fs.files
      ensures r.Failure? ==> r.error == FileNotFoundError(fileId)
      ensures r.Success? ==> r.value.filePath == UploadPath(uploadDir, fileId)
      ensures r.Success? ==> r.value.fileName == "unknown"
    {
      var path := UploadPath(uploadDir, fileId);
      if path !in fs.files then Failure(FileNotFoundError(fileId))
      else Success(FileAttributes(path, DictGet(fileMetadata, fileId, "unknown")))
    }

    /** parse_file: looks the stored PDF up, extracts its elements and packs
        them into chunks. */
    method ParseFile(fs: FileSystem, fileId: string, chunkSize: int, extract: Extractor, embed: Embedder)
      returns (r: Result<seq<ChunkRecord>, Exc>)
      ensures r == ParseFileSpec(fs.files, uploadDir, fileId, chunkSize, extract, embed)
    {
      var attrs := GetFilePath(fs, fileId);
      if attrs.Failure? {
        return Failure(attrs.error);
      }
      var extracted := extract(attrs.value.filePath);
      if extracted.Failure? {
        return Failure(extracted.error);
      }
      r := ChunkElements(fileId, attrs.value.fileName, extracted.value, chunkSize, embed);
    }
  }

  /** The accumulate-and-flush loop of parse_file over the extracted elements:
      blank elements are skipped, the accumulator is flushed as a chunk when the
      next element would push it past the chunk size, and whatever remains at
      the end becomes the last chunk. Each chunk is embedded as it is emitted. */
  method ChunkElements(fileId: string, fileName: string, elements: seq<string>, chunkSize: int, embed: Embedder)
    returns (r: Result<seq<ChunkRecord>, Exc>)
    ensures r == BuildChunks(fileId, fileName, ChunkTexts(Kept(elements), chunkSize), embed)
  {
    var chunks: seq<ChunkRecord> := [];
    var current := "";
    var counter := 1;
    ghost var kept: seq<string> := [];
    ghost var p := Pack(kept, chunkSize);
    for i := 0 to |elements|
      invariant kept == Kept(elements[..i])
      invariant p == Pack(kept, chunkSize)
      invariant current == Accumulated(p.open)
      invariant counter == |chunks| + 1
      invariant BuildChunks(fileId, fileName, JoinEach(p.closed), embed) == Success(chunks)
    {
      KeptStep(elements, i);
      var elText := Strip(elements[i]);
      if elText != "" {
        if |current| + |elText| + 1 > chunkSize {
          var chunkId := ChunkKey(counter);
          var text := Strip(current);
          OpenClean(kept, chunkSize);
          StripAccumulated(p.open);
          var embedding := GenerateEmbeddings(embed, text);
          if embedding.Failure? {
            FlushFailureIsFinal(elements, i, chunkSize, fileId, fileName, embed);
            return Failure(embedding.error);
          }
          BuildChunksSnoc(fileId, fileName, JoinEach(p.closed), text, embed, chunks);
          JoinEachSnoc(p.closed, p.open);
          PackFlush(kept, elText, chunkSize);
          chunks := chunks + [ChunkRecord(chunkId, fileId, fileName, text, |text|, embedding.value)];
          counter := counter + 1;
          current := "";
        } else {
          PackMerge(kept, elText, chunkSize);
        }
        current := current + elText + "\n";
        kept := kept + [elText];
        p := Pack(kept, chunkSize);
      }
    }
    assert elements[..|elements|] == elements;

    FinalTexts(kept, chunkSize);
    if Strip(current) != "" {
      var chunkId := ChunkKey(counter);
      var text := Strip(current);
      var embedding := GenerateEmbeddings(embed, text);
      if embedding.Failure? {
        BuildChunksFailsAt(fileId, fileName, ChunkTexts(kept, chunkSize), embed, |p.closed|);
        return Failure(embedding.error);
      }
      BuildChunksSnoc(fileId, fileName, JoinEach(p.closed), text, embed, chunks);
      chunks := chunks + [ChunkRecord(chunkId, fileId, fileName, text, |text|, embedding.value)];
    }
    return Success(chunks);
  }
}
