/**
 * What `FullRunData.__init__` and `DataFile.__init__` compute
 * (rr_python_file_reader/data_file.py:142-189), stated as functions of the file
 * image. The methods in module `Reader` follow the cursor step by step and are
 * proved to return exactly these values.
 */
module Sections {
  import opened Bytes
  import opened Wrappers
  import opened StructFormat
  import opened Records
  import opened FileImage

  /** The entries of the offset table at the start of the file. */
  const N_OFFSETS: nat := 5 + N_TAGS

  /** `struct.unpack(f"{n}I", chunk)`. */
  function UnpackU32s(n: nat, chunk: seq<u8>): (r: Result<seq<u32>>)
    ensures r.Ok? <==> |chunk| == 4 * n
    ensures r.Err? ==> r.error == UnpackSizeMismatch(4 * n, |chunk|)
    ensures r.Ok? ==> |r.value| == n
  {
    RepeatUIntLayout(n);
    var vs :- Unpack(Repeat(n, UInt), chunk);
    Ok(seq(n, k requires 0 <= k < n => Word(vs[k])))
  }

  /** Entry `k` of an unpacked table is the u32 at byte `4k` of the chunk. */
  lemma UnpackU32sAt(n: nat, chunk: seq<u8>, k: nat)
    requires |chunk| == 4 * n && k < n
    ensures UnpackU32s(n, chunk).value[k] == U32At(chunk, 4 * k)
  {
    RepeatUIntLayout(n);
    UnpackAt(Repeat(n, UInt), chunk, k);
    WordItem(chunk, 4 * k);
  }

  /** A table of `n` u32 values read at `start`: entry `k` is the u32 at `start + 4k` of the file. */
  lemma ReadU32sAt(data: seq<u8>, start: nat, n: nat, k: nat)
    requires UnpackU32s(n, ReadAt(data, start, 4 * n)).Ok? && k < n
    ensures start + 4 * k + 4 <= |data|
    ensures UnpackU32s(n, ReadAt(data, start, 4 * n)).value[k] == U32At(data, start + 4 * k)
  {
    var chunk := ReadAt(data, start, 4 * n);
    ReadAtShape(data, start, 4 * n);
    UnpackU32sAt(n, chunk, k);
    SameU32(chunk[4 * k ..], data[start + 4 * k ..], 0);
  }

  // ---------------------------------------------------------------- runs of records

  /** Where record `i` of a run of `width`-byte records from `start` begins: one record further on than record `i - 1`. */
  function RecordStart(start: nat, width: nat, i: nat): nat {
    if i == 0 then start else RecordStart(start, width, i - 1) + width
  }

  /** Record `i` begins `width * i` bytes after the run does. */
  lemma {:induction false} RecordStartIsProduct(start: nat, width: nat, i: nat)
    ensures RecordStart(start, width, i) == start + width * i
  {
    if i > 0 {
      RecordStartIsProduct(start, width, i - 1);
      assert width * (i - 1) + width == width * i;
    }
  }

  /** Record `i` of a run of `count` ends no later than the run does. */
  lemma {:induction false} RecordInside(start: nat, width: nat, i: nat, count: nat)
    requires i < count
    ensures RecordStart(start, width, i) + width <= RecordStart(start, width, count)
  {
    if i < count - 1 {
      RecordInside(start, width, i, count - 1);
    }
  }

  /**
   * `count` records of `width` bytes read back to back from `start`, the way the
   * points and mean loops read them; the first record that fails aborts the loop.
   */
  function ReadRecords<T>(data: seq<u8>, start: nat, count: nat, width: nat, decode: seq<u8> -> Result<T>): (r: Result<seq<T>>)
    ensures r.Ok? ==> |r.value| == count
  {
    if count == 0 then Ok([])
    else
      var init :- ReadRecords(data, start, count - 1, width, decode);
      var last :- decode(ReadAt(data, RecordStart(start, width, count - 1), width));
      Ok(init + [last])
  }

  /** Record `i` of a successful run is the decoding of the `width` bytes where record `i` begins. */
  lemma {:induction false} ReadRecordsAt<T>(data: seq<u8>, start: nat, count: nat, width: nat, decode: seq<u8> -> Result<T>, i: nat)
    requires ReadRecords(data, start, count, width, decode).Ok? && i < count
    ensures decode(ReadAt(data, RecordStart(start, width, i), width)) == Ok(ReadRecords(data, start, count, width, decode).value[i])
  {
    if i < count - 1 {
      ReadRecordsAt(data, start, count - 1, width, decode, i);
    }
  }

  /** A run succeeds exactly when every one of its records decodes. */
  lemma {:induction false} ReadRecordsOk<T>(data: seq<u8>, start: nat, count: nat, width: nat, decode: seq<u8> -> Result<T>)
    ensures ReadRecords(data, start, count, width, decode).Ok?
        <==> forall i :: 0 <= i < count ==> decode(ReadAt(data, RecordStart(start, width, i), width)).Ok?
  {
    if count > 0 {
      ReadRecordsOk(data, start, count - 1, width, decode);
      var init := ReadRecords(data, start, count - 1, width, decode);
      var last := decode(ReadAt(data, RecordStart(start, width, count - 1), width));
      assert ReadRecords(data, start, count, width, decode).Ok? <==> init.Ok? && last.Ok?;
      if init.Ok? && last.Ok? {
        forall i | 0 <= i < count
          ensures decode(ReadAt(data, RecordStart(start, width, i), width)).Ok?
        {
        }
      } else if init.Err? {
        var j :| 0 <= j < count - 1 && !decode(ReadAt(data, RecordStart(start, width, j), width)).Ok?;
        assert !ReadRecords(data, start, count, width, decode).Ok?;
      } else {
        var j := count - 1;
        assert !decode(ReadAt(data, RecordStart(start, width, j), width)).Ok?;
        assert !ReadRecords(data, start, count, width, decode).Ok?;
      }
    }
  }

  /** Once record `i` fails after `i` good ones, every longer run fails with its error. */
  lemma {:induction false} ReadRecordsErr<T>(data: seq<u8>, start: nat, i: nat, count: nat, width: nat, decode: seq<u8> -> Result<T>)
    requires i < count
    requires ReadRecords(data, start, i, width, decode).Ok?
    requires decode(ReadAt(data, RecordStart(start, width, i), width)).Err?
    ensures ReadRecords(data, start, count, width, decode) == Err(decode(ReadAt(data, RecordStart(start, width, i), width)).error)
  {
    if i < count - 1 {
      ReadRecordsErr(data, start, i, count - 1, width, decode);
    }
  }

  /**
   * Every record of a successful run of `width`-byte records lies in the file, and is
   * the decoding of its own `width` bytes.
   */
  lemma ReadRecordsSlices<T>(data: seq<u8>, start: nat, count: nat, width: nat, decode: seq<u8> -> Result<T>)
    requires width > 0 && forall c: seq<u8> :: decode(c).Ok? ==> |c| == width
    requires ReadRecords(data, start, count, width, decode).Ok?
    ensures forall i :: 0 <= i < count ==>
      RecordStart(start, width, i) + width <= |data| &&
      decode(data[RecordStart(start, width, i) .. RecordStart(start, width, i) + width]) == Ok(ReadRecords(data, start, count, width, decode).value[i])
  {
    var records := ReadRecords(data, start, count, width, decode).value;
    forall i | 0 <= i < count
      ensures RecordStart(start, width, i) + width <= |data| &&
        decode(data[RecordStart(start, width, i) .. RecordStart(start, width, i) + width]) == Ok(records[i])
    {
      var q := RecordStart(start, width, i);
      var c := ReadAt(data, q, width);
      ReadRecordsAt(data, start, count, width, decode, i);
      assert decode(c) == Ok(records[i]);
      assert |c| == width;
      ReadAtShape(data, q, width);
      assert c == data[q .. q + width];
    }
  }

  /** A run of records that each accept `width` bytes succeeds when it lies inside the file. */
  lemma {:induction false} ReadRecordsInside<T>(data: seq<u8>, start: nat, count: nat, width: nat, decode: seq<u8> -> Result<T>)
    requires forall c: seq<u8> :: decode(c).Ok? <==> |c| == width
    requires count == 0 || RecordStart(start, width, count) <= |data|
    ensures ReadRecords(data, start, count, width, decode).Ok?
  {
    if count > 0 {
      var last := RecordStart(start, width, count - 1);
      RecordInside(start, width, count - 1, count);
      if count > 1 {
        RecordInside(start, width, count - 2, count - 1);
      }
      ReadRecordsInside(data, start, count - 1, width, decode);
      ReadAtShape(data, last, width);
      assert decode(ReadAt(data, last, width)).Ok?;
    }
  }

  /** A run whose last record would end past the end of the file fails. */
  lemma ReadRecordsPastEnd<T>(data: seq<u8>, start: nat, count: nat, width: nat, decode: seq<u8> -> Result<T>)
    requires width > 0 && forall c: seq<u8> :: decode(c).Ok? ==> |c| == width
    requires count > 0 && RecordStart(start, width, count) > |data|
    ensures ReadRecords(data, start, count, width, decode).Err?
  {
    var last := RecordStart(start, width, count - 1);
    ReadAtShape(data, last, width);
    assert !decode(ReadAt(data, last, width)).Ok?;
  }

  /**
   * For a record that accepts exactly `width` bytes, a run succeeds exactly when it
   * lies inside the file.
   */
  lemma ReadRecordsFit<T>(data: seq<u8>, start: nat, count: nat, width: nat, decode: seq<u8> -> Result<T>)
    requires width > 0
    requires forall c: seq<u8> :: decode(c).Ok? <==> |c| == width
    ensures ReadRecords(data, start, count, width, decode).Ok? <==> count == 0 || start + width * count <= |data|
  {
    RecordStartIsProduct(start, width, count);
    if count == 0 || RecordStart(start, width, count) <= |data| {
      ReadRecordsInside(data, start, count, width, decode);
    } else {
      ReadRecordsPastEnd(data, start, count, width, decode);
    }
  }

  // ---------------------------------------------------------------- FullRunData

  /** One full-run section: its header and its `header.length` points. */
  datatype FullRunData = FullRunData(headers: FullDataHeaders, points: seq<RunDataPoint>)

  /** `FullRunData(f)` with the cursor at `pos`: a header, then the points that follow it. */
  function ParseFullRun(data: seq<u8>, pos: nat): (r: Result<FullRunData>)
    ensures r.Ok? ==> |r.value.points| == r.value.headers.length as nat
  {
    var headers :- DecodeFullDataHeaders(ReadAt(data, pos, FULL_DATA_HEADERS_SIZE));
    var points :- ReadRecords(data, pos + FULL_DATA_HEADERS_SIZE, headers.length as nat, RUN_DATA_POINT_SIZE, DecodeRunDataPoint);
    Ok(FullRunData(headers, points))
  }

  /**
   * A full-run section parses exactly when its 24-byte header lies in the file and
   * its points, 24 bytes each, follow the header inside the file.
   */
  lemma ParseFullRunOk(data: seq<u8>, pos: nat)
    ensures ParseFullRun(data, pos).Ok? <==>
      pos + 24 <= |data| &&
      var length := DecodeFullDataHeaders(data[pos .. pos + 24]).value.length as nat;
      length == 0 || pos + 24 + 24 * length <= |data|
  {
    ReadAtShape(data, pos, 24);
    if pos + 24 <= |data| {
      var n := DecodeFullDataHeaders(data[pos .. pos + 24]).value.length as nat;
      ReadRecordsFit(data, pos + 24, n, 24, DecodeRunDataPoint);
    }
  }

  /** A parsed section holds the header decoded at `pos` and the run of points after it. */
  lemma ParseFullRunParts(data: seq<u8>, pos: nat)
    requires ParseFullRun(data, pos).Ok?
    ensures
      var run := ParseFullRun(data, pos).value;
      DecodeFullDataHeaders(ReadAt(data, pos, FULL_DATA_HEADERS_SIZE)) == Ok(run.headers) &&
      ReadRecords(data, pos + FULL_DATA_HEADERS_SIZE, run.headers.length as nat, RUN_DATA_POINT_SIZE, DecodeRunDataPoint) == Ok(run.points)
  {
  }

  /** The header of a parsed section is decoded from the 24 bytes at `pos`. */
  lemma ParseFullRunHeader(data: seq<u8>, pos: nat)
    requires ParseFullRun(data, pos).Ok?
    ensures pos + 24 <= |data|
    ensures DecodeFullDataHeaders(data[pos .. pos + 24]) == Ok(ParseFullRun(data, pos).value.headers)
  {
    ParseFullRunParts(data, pos);
    ReadAtShape(data, pos, 24);
  }

  /** Point `i` of a parsed section is decoded from the 24 bytes at `pos + 24 + 24 * i`. */
  lemma ParseFullRunPoint(data: seq<u8>, pos: nat, i: nat)
    requires ParseFullRun(data, pos).Ok? && i < |ParseFullRun(data, pos).value.points|
    ensures pos + 24 + 24 * i + 24 <= |data|
    ensures DecodeRunDataPoint(data[pos + 24 + 24 * i .. pos + 24 + 24 * i + 24]) == Ok(ParseFullRun(data, pos).value.points[i])
  {
    var run := ParseFullRun(data, pos).value;
    var q := pos + 24 + 24 * i;
    ParseFullRunParts(data, pos);
    ReadRecordsAt(data, pos + 24, run.headers.length as nat, 24, DecodeRunDataPoint, i);
    RecordStartIsProduct(pos + 24, 24, i);
    var c := ReadAt(data, q, 24);
    assert DecodeRunDataPoint(c) == Ok(run.points[i]);
    ReadAtShape(data, q, 24);
    assert c == data[q .. q + 24];
  }

  // ---------------------------------------------------------------- lists of sections

  /**
   * The sections at `offsets[0..count]`, each parsed by `parse` from its own offset,
   * in table order; the first failure aborts.
   */
  function ReadSections<T>(offsets: seq<u32>, count: nat, parse: nat -> Result<T>): (r: Result<seq<T>>)
    requires count <= |offsets|
    ensures r.Ok? ==> |r.value| == count
  {
    if count == 0 then Ok([])
    else
      var init :- ReadSections(offsets, count - 1, parse);
      var last :- parse(offsets[count - 1] as nat);
      Ok(init + [last])
  }

  /** Section `i` of a successful list is the one parsed at `offsets[i]`. */
  lemma {:induction false} ReadSectionsAt<T>(offsets: seq<u32>, count: nat, parse: nat -> Result<T>, i: nat)
    requires count <= |offsets| && i < count
    requires ReadSections(offsets, count, parse).Ok?
    ensures parse(offsets[i] as nat) == Ok(ReadSections(offsets, count, parse).value[i])
  {
    if i < count - 1 {
      ReadSectionsAt(offsets, count - 1, parse, i);
    }
  }

  /** The list parses exactly when every section in it parses. */
  lemma {:induction false} ReadSectionsOk<T>(offsets: seq<u32>, count: nat, parse: nat -> Result<T>)
    requires count <= |offsets|
    ensures ReadSections(offsets, count, parse).Ok?
        <==> forall i :: 0 <= i < count ==> parse(offsets[i] as nat).Ok?
  {
    if count > 0 {
      ReadSectionsOk(offsets, count - 1, parse);
    }
  }

  /** A list of `i` sections that parsed, followed by section `i` that parses, is the list of `i + 1`. */
  lemma ReadSectionsStep<T>(offsets: seq<u32>, i: nat, parse: nat -> Result<T>, sections: seq<T>, next: T)
    requires i < |offsets|
    requires ReadSections(offsets, i, parse) == Ok(sections)
    requires parse(offsets[i] as nat) == Ok(next)
    ensures ReadSections(offsets, i + 1, parse) == Ok(sections + [next])
  {
  }

  /** Once section `i` fails after `i` good ones, every longer list fails with its error. */
  lemma {:induction false} ReadSectionsErr<T>(offsets: seq<u32>, i: nat, count: nat, parse: nat -> Result<T>)
    requires i < count <= |offsets|
    requires ReadSections(offsets, i, parse).Ok?
    requires parse(offsets[i] as nat).Err?
    ensures ReadSections(offsets, count, parse) == Err(parse(offsets[i] as nat).error)
  {
    if i < count - 1 {
      ReadSectionsErr(offsets, i, count - 1, parse);
    }
  }

  /** `FullRunData(f)` as a parser of the section at a given offset. */
  function FullRunParser(data: seq<u8>): nat -> Result<FullRunData>
  {
    (p: nat) => ParseFullRun(data, p)
  }

  /** The full-run sections at `offsets[0..count]`. */
  function ParseFullRuns(data: seq<u8>, offsets: seq<u32>, count: nat): (r: Result<seq<FullRunData>>)
    requires count <= |offsets|
    ensures r.Ok? ==> |r.value| == count
  {
    ReadSections(offsets, count, FullRunParser(data))
  }

  // ---------------------------------------------------------------- DataFile

  /** A decoded data file; `tagDescriptions` are the raw tag bytes. */
  datatype DataFile = DataFile(
    offsets: seq<u32>,
    fullDataOffsets: seq<u32>,
    metadata: MetaData,
    summary: SummaryData,
    tagDescriptions: seq<seq<u8>>,
    means: seq<MeanData>,
    fullData: seq<FullRunData>)

  /** The first `count` tag descriptions: tag `i` is read at `offsets[i + 2]`, with no length check. */
  function ReadTags(data: seq<u8>, offsets: seq<u32>, lengths: TagLengths, count: nat): (tags: seq<seq<u8>>)
    requires |offsets| == N_OFFSETS && count <= N_TAGS
    ensures |tags| == count
  {
    if count == 0 then []
    else ReadTags(data, offsets, lengths, count - 1) + [ReadAt(data, offsets[count + 1] as nat, lengths[count - 1] as nat)]
  }

  /** Tag `i` is the read of `lengths[i]` bytes at `offsets[i + 2]`. */
  lemma {:induction false} ReadTagsAt(data: seq<u8>, offsets: seq<u32>, lengths: TagLengths, count: nat, i: nat)
    requires |offsets| == N_OFFSETS && count <= N_TAGS && i < count
    ensures ReadTags(data, offsets, lengths, count)[i] == ReadAt(data, offsets[i + 2] as nat, lengths[i] as nat)
  {
    if i < count - 1 {
      ReadTagsAt(data, offsets, lengths, count - 1, i);
    }
  }

  /** `DataFile(filename)` on a file with contents `data`. */
  function ParseDataFile(data: seq<u8>): (r: Result<DataFile>)
    ensures r.Ok? ==> |r.value.offsets| == N_OFFSETS
  {
    var offsets :- UnpackU32s(N_OFFSETS, ReadAt(data, 0, 4 * N_OFFSETS));
    ParseSections(data, offsets)
  }

  /** Everything `DataFile(filename)` reads once the offset table is known. */
  function ParseSections(data: seq<u8>, offsets: seq<u32>): (r: Result<DataFile>)
    requires |offsets| == N_OFFSETS
    ensures r.Ok? ==> r.value.offsets == offsets
  {
    var metadata :- DecodeMetaData(ReadAt(data, offsets[0] as nat, METADATA_SIZE));
    var summary :- DecodeSummaryData(ReadAt(data, offsets[1] as nat, SUMMARY_SIZE));
    ParseLists(data, offsets, metadata, summary)
  }

  /** The tags, the means and the full runs, whose counts and lengths the metadata gives. */
  function ParseLists(data: seq<u8>, offsets: seq<u32>, metadata: MetaData, summary: SummaryData): (r: Result<DataFile>)
    requires |offsets| == N_OFFSETS
    ensures r.Ok? ==> r.value.offsets == offsets && r.value.metadata == metadata && r.value.summary == summary
  {
    var tags := ReadTags(data, offsets, metadata.tagInfoLengths, N_TAGS);
    var means :- ReadRecords(data, offsets[N_TAGS + 2] as nat, metadata.nMeanSections as nat, MEAN_SIZE, DecodeMeanData);
    var n := metadata.nFullDataSections as nat;
    var fullDataOffsets :- UnpackU32s(n, ReadAt(data, offsets[N_TAGS + 3] as nat, 4 * n));
    var fullData :- ParseFullRuns(data, fullDataOffsets, n);
    Ok(DataFile(offsets, fullDataOffsets, metadata, summary, tags, means, fullData))
  }

  // ---------------------------------------------------------------- what a parsed file holds

  /** The file must start with the 36-byte offset table; a shorter file fails to unpack it. */
  lemma ParseDataFileShort(data: seq<u8>)
    requires |data| < 4 * N_OFFSETS
    ensures ParseDataFile(data) == Err(UnpackSizeMismatch(4 * N_OFFSETS, |data|))
  {
    ReadAtShape(data, 0, 4 * N_OFFSETS);
  }

  /** Entry `k` of the offset table is the u32 at byte `4k` of the file. */
  lemma ParseDataFileOffset(data: seq<u8>, k: nat)
    requires ParseDataFile(data).Ok? && k < N_OFFSETS
    ensures 4 * N_OFFSETS <= |data|
    ensures ParseDataFile(data).value.offsets[k] == U32At(data, 4 * k)
  {
    ReadAtShape(data, 0, 4 * N_OFFSETS);
    ReadU32sAt(data, 0, N_OFFSETS, k);
  }

  /** A parsed file holds the metadata and summary read at `offsets[0]` and `offsets[1]`, then its lists. */
  lemma ParseSectionsParts(data: seq<u8>, offsets: seq<u32>)
    requires |offsets| == N_OFFSETS && ParseSections(data, offsets).Ok?
    ensures
      var file := ParseSections(data, offsets).value;
      DecodeMetaData(ReadAt(data, offsets[0] as nat, METADATA_SIZE)) == Ok(file.metadata) &&
      DecodeSummaryData(ReadAt(data, offsets[1] as nat, SUMMARY_SIZE)) == Ok(file.summary) &&
      ParseLists(data, offsets, file.metadata, file.summary) == Ok(file)
  {
  }

  /** The lists of a parsed file, each as read from its own offset. */
  lemma ParseListsParts(data: seq<u8>, offsets: seq<u32>, metadata: MetaData, summary: SummaryData)
    requires |offsets| == N_OFFSETS && ParseLists(data, offsets, metadata, summary).Ok?
    ensures
      var file := ParseLists(data, offsets, metadata, summary).value;
      var n := metadata.nFullDataSections as nat;
      file.tagDescriptions == ReadTags(data, offsets, metadata.tagInfoLengths, N_TAGS) &&
      ReadRecords(data, offsets[6] as nat, metadata.nMeanSections as nat, MEAN_SIZE, DecodeMeanData) == Ok(file.means) &&
      UnpackU32s(n, ReadAt(data, offsets[7] as nat, 4 * n)) == Ok(file.fullDataOffsets) &&
      ParseFullRuns(data, file.fullDataOffsets, n) == Ok(file.fullData)
  {
    var n := metadata.nFullDataSections as nat;
    var tags := ReadTags(data, offsets, metadata.tagInfoLengths, N_TAGS);
    var means := ReadRecords(data, offsets[6] as nat, metadata.nMeanSections as nat, MEAN_SIZE, DecodeMeanData).value;
    var fullDataOffsets := UnpackU32s(n, ReadAt(data, offsets[7] as nat, 4 * n)).value;
    var fullData := ParseFullRuns(data, fullDataOffsets, n).value;
    assert ParseLists(data, offsets, metadata, summary) == Ok(DataFile(offsets, fullDataOffsets, metadata, summary, tags, means, fullData));
  }

  /** The bytes left in the file from `pos` on: what a read of more than that returns. */
  function Remaining(data: seq<u8>, pos: nat): nat {
    if pos <= |data| then |data| - pos else 0
  }

  /** A metadata record that runs past the end of the file fails its length check. */
  lemma ParseSectionsShortMetaData(data: seq<u8>, offsets: seq<u32>)
    requires |offsets| == N_OFFSETS && offsets[0] as nat + METADATA_SIZE > |data|
    ensures ParseSections(data, offsets) == Err(LengthMismatch(MetaDataRecord, METADATA_SIZE, Remaining(data, offsets[0] as nat)))
  {
    ReadAtShape(data, offsets[0] as nat, METADATA_SIZE);
  }

  /** After a good metadata record, a summary that runs past the end of the file fails its length check. */
  lemma ParseSectionsShortSummary(data: seq<u8>, offsets: seq<u32>)
    requires |offsets| == N_OFFSETS && offsets[0] as nat + METADATA_SIZE <= |data|
    requires offsets[1] as nat + SUMMARY_SIZE > |data|
    ensures ParseSections(data, offsets) == Err(LengthMismatch(SummaryDataRecord, SUMMARY_SIZE, Remaining(data, offsets[1] as nat)))
  {
    ReadAtShape(data, offsets[0] as nat, METADATA_SIZE);
    ReadAtShape(data, offsets[1] as nat, SUMMARY_SIZE);
  }

  /** The metadata is the 92 bytes at `offsets[0]`, the summary the 64 bytes at `offsets[1]`. */
  lemma ParseSectionsRecords(data: seq<u8>, offsets: seq<u32>)
    requires |offsets| == N_OFFSETS && ParseSections(data, offsets).Ok?
    ensures offsets[0] as nat + 92 <= |data| && offsets[1] as nat + 64 <= |data|
    ensures DecodeMetaData(data[offsets[0] .. offsets[0] as nat + 92]) == Ok(ParseSections(data, offsets).value.metadata)
    ensures DecodeSummaryData(data[offsets[1] .. offsets[1] as nat + 64]) == Ok(ParseSections(data, offsets).value.summary)
  {
    ParseSectionsParts(data, offsets);
    ReadAtShape(data, offsets[0] as nat, 92);
    ReadAtShape(data, offsets[1] as nat, 64);
  }

  /**
   * There are four tags; tag `i` is the read of `tag_info_lengths[i]` bytes at
   * `offsets[i + 2]`, and it is shorter than requested only where it reaches the end
   * of the file.
   */
  lemma ParseListsTag(data: seq<u8>, offsets: seq<u32>, metadata: MetaData, summary: SummaryData, i: nat)
    requires |offsets| == N_OFFSETS && ParseLists(data, offsets, metadata, summary).Ok? && i < N_TAGS
    ensures |ParseLists(data, offsets, metadata, summary).value.tagDescriptions| == N_TAGS
    ensures
      var tag := ParseLists(data, offsets, metadata, summary).value.tagDescriptions[i];
      var length := metadata.tagInfoLengths[i] as nat;
      tag == ReadAt(data, offsets[i + 2] as nat, length) &&
      (|tag| < length ==> offsets[i + 2] as nat + |tag| >= |data|)
  {
    ParseListsParts(data, offsets, metadata, summary);
    ReadTagsAt(data, offsets, metadata.tagInfoLengths, N_TAGS, i);
    ReadAtShape(data, offsets[i + 2] as nat, metadata.tagInfoLengths[i] as nat);
  }

  /** There are `n_mean_sections` means; mean `i` is the 16 bytes at `offsets[6] + 16 * i`. */
  lemma ParseListsMean(data: seq<u8>, offsets: seq<u32>, metadata: MetaData, summary: SummaryData, i: nat)
    requires |offsets| == N_OFFSETS && ParseLists(data, offsets, metadata, summary).Ok?
    requires i < metadata.nMeanSections as nat
    ensures |ParseLists(data, offsets, metadata, summary).value.means| == metadata.nMeanSections as nat
    ensures offsets[6] as nat + MEAN_SIZE * i + MEAN_SIZE <= |data|
    ensures DecodeMeanData(data[offsets[6] as nat + MEAN_SIZE * i .. offsets[6] as nat + MEAN_SIZE * i + MEAN_SIZE])
        == Ok(ParseLists(data, offsets, metadata, summary).value.means[i])
  {
    var file := ParseLists(data, offsets, metadata, summary).value;
    var q := offsets[6] as nat + MEAN_SIZE * i;
    ParseListsParts(data, offsets, metadata, summary);
    ReadRecordsAt(data, offsets[6] as nat, metadata.nMeanSections as nat, MEAN_SIZE, DecodeMeanData, i);
    RecordStartIsProduct(offsets[6] as nat, MEAN_SIZE, i);
    var c := ReadAt(data, q, MEAN_SIZE);
    assert DecodeMeanData(c) == Ok(file.means[i]);
    ReadAtShape(data, q, MEAN_SIZE);
    assert c == data[q .. q + MEAN_SIZE];
  }

  /**
   * There are `n_full_data_sections` full-run offsets; offset `i` is the u32 at
   * `offsets[7] + 4 * i`.
   */
  lemma ParseListsFullOffset(data: seq<u8>, offsets: seq<u32>, metadata: MetaData, summary: SummaryData, i: nat)
    requires |offsets| == N_OFFSETS && ParseLists(data, offsets, metadata, summary).Ok?
    requires i < metadata.nFullDataSections as nat
    ensures |ParseLists(data, offsets, metadata, summary).value.fullDataOffsets| == metadata.nFullDataSections as nat
    ensures offsets[7] as nat + 4 * i + 4 <= |data|
    ensures ParseLists(data, offsets, metadata, summary).value.fullDataOffsets[i] == U32At(data, offsets[7] as nat + 4 * i)
  {
    var file := ParseLists(data, offsets, metadata, summary).value;
    var n := metadata.nFullDataSections as nat;
    var start := offsets[7] as nat;
    ParseListsParts(data, offsets, metadata, summary);
    var table := UnpackU32s(n, ReadAt(data, start, 4 * n));
    assert table == Ok(file.fullDataOffsets);
    ReadU32sAt(data, start, n, i);
    assert file.fullDataOffsets[i] == table.value[i] == U32At(data, start + 4 * i);
  }

  /**
   * There are as many full runs as full-run offsets, and run `i` is the section
   * parsed at offset `i`, in table order.
   */
  lemma ParseListsFullRun(data: seq<u8>, offsets: seq<u32>, metadata: MetaData, summary: SummaryData, i: nat)
    requires |offsets| == N_OFFSETS && ParseLists(data, offsets, metadata, summary).Ok?
    requires i < metadata.nFullDataSections as nat
    ensures
      var file := ParseLists(data, offsets, metadata, summary).value;
      |file.fullDataOffsets| == |file.fullData| == metadata.nFullDataSections as nat &&
      ParseFullRun(data, file.fullDataOffsets[i] as nat) == Ok(file.fullData[i])
  {
    var file := ParseLists(data, offsets, metadata, summary).value;
    var n := metadata.nFullDataSections as nat;
    var fullDataOffsets := file.fullDataOffsets;
    ParseListsParts(data, offsets, metadata, summary);
    assert ReadSections(fullDataOffsets, n, FullRunParser(data)) == Ok(file.fullData);
    ReadSectionsAt(fullDataOffsets, n, FullRunParser(data), i);
    assert FullRunParser(data)(fullDataOffsets[i] as nat) == ParseFullRun(data, fullDataOffsets[i] as nat);
  }

  /**
   * The metadata and summary of `file` are the records decoded from the 92 bytes at
   * `offsets[0]` and the 64 bytes at `offsets[1]`.
   */
  predicate RecordsReadFrom(data: seq<u8>, file: DataFile) {
    |file.offsets| == N_OFFSETS &&
    file.offsets[0] as nat + 92 <= |data| &&
    file.offsets[1] as nat + 64 <= |data| &&
    DecodeMetaData(data[file.offsets[0] .. file.offsets[0] as nat + 92]) == Ok(file.metadata) &&
    DecodeSummaryData(data[file.offsets[1] .. file.offsets[1] as nat + 64]) == Ok(file.summary)
  }

  /** Tag `i` of `file` is the read of `tag_info_lengths[i]` bytes at `offsets[i + 2]`. */
  predicate TagsReadFrom(data: seq<u8>, file: DataFile) {
    |file.offsets| == N_OFFSETS &&
    |file.tagDescriptions| == N_TAGS &&
    forall i :: 0 <= i < N_TAGS ==>
      file.tagDescriptions[i] == ReadAt(data, file.offsets[i + 2] as nat, file.metadata.tagInfoLengths[i] as nat)
  }

  /**
   * There are `n_mean_sections` means, and mean `i` is decoded from the 16 bytes where
   * it begins, `offsets[6] + 16 * i` by `RecordStartIsProduct`.
   */
  predicate MeansReadFrom(data: seq<u8>, file: DataFile) {
    |file.offsets| == N_OFFSETS &&
    |file.means| == file.metadata.nMeanSections as nat &&
    forall i :: 0 <= i < |file.means| ==>
      var q := RecordStart(file.offsets[6] as nat, MEAN_SIZE, i);
      q + MEAN_SIZE <= |data| && DecodeMeanData(data[q .. q + MEAN_SIZE]) == Ok(file.means[i])
  }

  /** There is one full run per entry of the full-data table, and run `i` is the one parsed at entry `i`. */
  predicate RunsReadFrom(data: seq<u8>, file: DataFile) {
    |file.fullDataOffsets| == |file.fullData| == file.metadata.nFullDataSections as nat &&
    forall i :: 0 <= i < |file.fullData| ==>
      ParseFullRun(data, file.fullDataOffsets[i] as nat) == Ok(file.fullData[i])
  }

  /** The four tags returned by `ParseLists` are read from their offsets. */
  lemma ParseListsTags(data: seq<u8>, offsets: seq<u32>, metadata: MetaData, summary: SummaryData)
    requires |offsets| == N_OFFSETS && ParseLists(data, offsets, metadata, summary).Ok?
    ensures TagsReadFrom(data, ParseLists(data, offsets, metadata, summary).value)
  {
    var file := ParseLists(data, offsets, metadata, summary).value;
    ParseListsParts(data, offsets, metadata, summary);
    forall i | 0 <= i < N_TAGS
      ensures file.tagDescriptions[i] == ReadAt(data, offsets[i + 2] as nat, metadata.tagInfoLengths[i] as nat)
    {
      ReadTagsAt(data, offsets, metadata.tagInfoLengths, N_TAGS, i);
    }
  }

  /** The means returned by `ParseLists` are read at a 16-byte stride from `offsets[6]`. */
  lemma ParseListsMeans(data: seq<u8>, offsets: seq<u32>, metadata: MetaData, summary: SummaryData)
    requires |offsets| == N_OFFSETS && ParseLists(data, offsets, metadata, summary).Ok?
    ensures MeansReadFrom(data, ParseLists(data, offsets, metadata, summary).value)
  {
    var file := ParseLists(data, offsets, metadata, summary).value;
    ParseListsParts(data, offsets, metadata, summary);
    MeanSlices(data, offsets[6] as nat, metadata.nMeanSections as nat, file.means);
  }

  /** Each mean of a successful run of means is decoded from its own 16 bytes. */
  lemma MeanSlices(data: seq<u8>, start: nat, count: nat, means: seq<MeanData>)
    requires ReadRecords(data, start, count, MEAN_SIZE, DecodeMeanData) == Ok(means)
    ensures |means| == count
    ensures forall i :: 0 <= i < |means| ==>
      var q := RecordStart(start, MEAN_SIZE, i);
      q + MEAN_SIZE <= |data| && DecodeMeanData(data[q .. q + MEAN_SIZE]) == Ok(means[i])
  {
    ReadRecordsSlices(data, start, count, MEAN_SIZE, DecodeMeanData);
  }

  /** The full runs returned by `ParseLists` are parsed at the entries of the full-data table, in order. */
  lemma ParseListsRuns(data: seq<u8>, offsets: seq<u32>, metadata: MetaData, summary: SummaryData)
    requires |offsets| == N_OFFSETS && ParseLists(data, offsets, metadata, summary).Ok?
    ensures RunsReadFrom(data, ParseLists(data, offsets, metadata, summary).value)
  {
    var file := ParseLists(data, offsets, metadata, summary).value;
    ParseListsParts(data, offsets, metadata, summary);
    forall i | 0 <= i < |file.fullData|
      ensures ParseFullRun(data, file.fullDataOffsets[i] as nat) == Ok(file.fullData[i])
    {
      ParseListsFullRun(data, offsets, metadata, summary, i);
    }
  }

  /**
   * Everything a successfully decoded file holds, each part as read from its own
   * offset: the metadata and summary records, the four tags, the means at a 16-byte
   * stride, and one full run at each offset of the full-data table, in table order.
   */
  lemma ParseDataFileContents(data: seq<u8>)
    requires ParseDataFile(data).Ok?
    ensures RecordsReadFrom(data, ParseDataFile(data).value)
    ensures TagsReadFrom(data, ParseDataFile(data).value)
    ensures MeansReadFrom(data, ParseDataFile(data).value)
    ensures RunsReadFrom(data, ParseDataFile(data).value)
  {
    var file := ParseDataFile(data).value;
    var offsets := file.offsets;
    assert ParseSections(data, offsets) == Ok(file);
    ParseSectionsRecords(data, offsets);
    assert RecordsReadFrom(data, file);
    ParseSectionsParts(data, offsets);
    ParseListsTags(data, offsets, file.metadata, file.summary);
    ParseListsMeans(data, offsets, file.metadata, file.summary);
    ParseListsRuns(data, offsets, file.metadata, file.summary);
  }

  /** The tags read do not depend on `offsets[8]`. */
  lemma {:induction false} ReadTagsIgnoresLast(data: seq<u8>, offsets: seq<u32>, lengths: TagLengths, count: nat, x: u32)
    requires |offsets| == N_OFFSETS && count <= N_TAGS
    ensures ReadTags(data, offsets[8 := x], lengths, count) == ReadTags(data, offsets, lengths, count)
  {
    if count > 0 {
      ReadTagsIgnoresLast(data, offsets, lengths, count - 1, x);
    }
  }

  /** `offsets[8]` is only stored: changing it changes nothing else and no outcome. */
  lemma ParseSectionsIgnoresLast(data: seq<u8>, offsets: seq<u32>, x: u32)
    requires |offsets| == N_OFFSETS
    ensures
      var r := ParseSections(data, offsets);
      ParseSections(data, offsets[8 := x]) == if r.Ok? then Ok(r.value.(offsets := offsets[8 := x])) else r
  {
    var other := offsets[8 := x];
    assert other[0] == offsets[0] && other[1] == offsets[1] && other[6] == offsets[6] && other[7] == offsets[7];
    var metadata := DecodeMetaData(ReadAt(data, offsets[0] as nat, METADATA_SIZE));
    var summary := DecodeSummaryData(ReadAt(data, offsets[1] as nat, SUMMARY_SIZE));
    if metadata.Ok? && summary.Ok? {
      var m := metadata.value;
      var n := m.nFullDataSections as nat;
      ReadTagsIgnoresLast(data, offsets, m.tagInfoLengths, N_TAGS, x);
      var means := ReadRecords(data, offsets[6] as nat, m.nMeanSections as nat, MEAN_SIZE, DecodeMeanData);
      var fullDataOffsets := UnpackU32s(n, ReadAt(data, offsets[7] as nat, 4 * n));
      if means.Ok? && fullDataOffsets.Ok? {
        var fullData := ParseFullRuns(data, fullDataOffsets.value, n);
        if fullData.Ok? {
          var tags := ReadTags(data, offsets, m.tagInfoLengths, N_TAGS);
          assert ParseSections(data, offsets) == Ok(DataFile(offsets, fullDataOffsets.value, m, summary.value, tags, means.value, fullData.value));
          assert ParseSections(data, other) == Ok(DataFile(other, fullDataOffsets.value, m, summary.value, tags, means.value, fullData.value));
        }
      }
    }
  }
}
