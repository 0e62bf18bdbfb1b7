/**
 * `FullRunData.__init__` and `DataFile.__init__` (rr_python_file_reader/data_file.py:142-189)
 * as they run: a cursor moved by `seek` and `read`, and lists grown one append at a
 * time. Each method is proved to compute the value the matching function of module
 * `Sections` describes; a Python exception is an `Err` result.
 */
module Reader {
  import opened Bytes
  import opened Wrappers
  import opened Records
  import opened FileImage
  import opened Sections

  /** `Record(f.read(width))`: one record decoded from the bytes at the cursor. */
  method ReadRecord<T>(f: FileReader, width: nat, decode: seq<u8> -> Result<T>) returns (r: Result<T>)
    requires forall c: seq<u8> :: decode(c).Ok? ==> |c| == width
    modifies f
    ensures r == decode(ReadAt(f.data, old(f.pos), width))
    ensures r.Ok? ==> f.pos == old(f.pos) + width
  {
    var chunk := f.Read(width);
    r := decode(chunk);
  }

  /**
   * `count` records of `width` bytes read one after another from the cursor, as the
   * points loop and the means loop do; the first record that fails ends the loop.
   */
  method ReadRecordsFrom<T>(f: FileReader, count: nat, width: nat, decode: seq<u8> -> Result<T>) returns (r: Result<seq<T>>)
    requires forall c: seq<u8> :: decode(c).Ok? ==> |c| == width
    modifies f
    ensures r == ReadRecords(f.data, old(f.pos), count, width, decode)
    ensures r.Ok? ==> f.pos == old(f.pos) + width * count
  {
    var start := f.pos;
    var records: seq<T> := [];
    for i := 0 to count
      invariant f.pos == RecordStart(start, width, i)
      invariant ReadRecords(f.data, start, i, width, decode) == Ok(records)
    {
      var record := ReadRecord(f, width, decode);
      if record.Err? {
        ReadRecordsErr(f.data, start, i, count, width, decode);
        return Err(record.error);
      }
      assert ReadRecords(f.data, start, i + 1, width, decode) == Ok(records + [record.value]);
      records := records + [record.value];
    }
    RecordStartIsProduct(start, width, count);
    return Ok(records);
  }

  /** `FullRunData(f)`: the header at the cursor, then `header.length` points with no seek between them. */
  method ReadFullRunData(f: FileReader) returns (r: Result<FullRunData>)
    modifies f
    ensures r == ParseFullRun(f.data, old(f.pos))
    ensures r.Ok? ==> f.pos == old(f.pos) + FULL_DATA_HEADERS_SIZE + RUN_DATA_POINT_SIZE * |r.value.points|
  {
    var start := f.pos;
    var chunk := f.Read(FULL_DATA_HEADERS_SIZE);
    var headers := DecodeFullDataHeaders(chunk);
    if headers.Err? {
      return Err(headers.error);
    }
    var points := ReadRecordsFrom(f, headers.value.length as nat, RUN_DATA_POINT_SIZE, DecodeRunDataPoint);
    if points.Err? {
      return Err(points.error);
    }
    return Ok(FullRunData(headers.value, points.value));
  }

  /** The tag loop: seek to `offsets[i + 2]` and read `lengths[i]` bytes, for each of the four tags. */
  method ReadTagDescriptions(f: FileReader, offsets: seq<u32>, lengths: TagLengths) returns (tags: seq<seq<u8>>)
    requires |offsets| == N_OFFSETS
    modifies f
    ensures tags == ReadTags(f.data, offsets, lengths, N_TAGS)
  {
    tags := [];
    for i := 0 to N_TAGS
      invariant tags == ReadTags(f.data, offsets, lengths, i)
    {
      f.Seek(offsets[i + 2] as nat);
      var tag := f.Read(lengths[i] as nat);
      tags := tags + [tag];
    }
  }

  /**
   * One step of the full-data loop: seek to `offsets[i]` and read the run there,
   * extending the `i` runs already read or ending the whole list with its error.
   */
  method ReadNextRun(f: FileReader, offsets: seq<u32>, count: nat, i: nat, runs: seq<FullRunData>) returns (r: Result<FullRunData>)
    requires i < count <= |offsets|
    requires ReadSections(offsets, i, FullRunParser(f.data)) == Ok(runs)
    modifies f
    ensures r.Ok? ==> ReadSections(offsets, i + 1, FullRunParser(f.data)) == Ok(runs + [r.value])
    ensures r.Err? ==> ParseFullRuns(f.data, offsets, count) == Err(r.error)
  {
    f.Seek(offsets[i] as nat);
    r := ReadFullRunData(f);
    assert r == FullRunParser(f.data)(offsets[i] as nat);
    if r.Err? {
      ReadSectionsErr(offsets, i, count, FullRunParser(f.data));
    } else {
      ReadSectionsStep(offsets, i, FullRunParser(f.data), runs, r.value);
    }
  }

  /** The full-data loop: seek to each offset in turn and read one full-run section there. */
  method ReadFullRuns(f: FileReader, offsets: seq<u32>, count: nat) returns (r: Result<seq<FullRunData>>)
    requires count <= |offsets|
    modifies f
    ensures r == ParseFullRuns(f.data, offsets, count)
  {
    var runs: seq<FullRunData> := [];
    for i := 0 to count
      invariant ReadSections(offsets, i, FullRunParser(f.data)) == Ok(runs)
    {
      var run := ReadNextRun(f, offsets, count, i, runs);
      if run.Err? {
        return Err(run.error);
      }
      runs := runs + [run.value];
    }
    return Ok(runs);
  }

  /** Everything `DataFile.__init__` does once the offset table has been read. */
  method ReadSectionsFrom(f: FileReader, offsets: seq<u32>) returns (r: Result<DataFile>)
    requires |offsets| == N_OFFSETS
    modifies f
    ensures r == ParseSections(f.data, offsets)
  {
    f.Seek(offsets[0] as nat);
    var chunk := f.Read(METADATA_SIZE);
    var metadata := DecodeMetaData(chunk);
    if metadata.Err? {
      return Err(metadata.error);
    }
    f.Seek(offsets[1] as nat);
    chunk := f.Read(SUMMARY_SIZE);
    var summary := DecodeSummaryData(chunk);
    if summary.Err? {
      return Err(summary.error);
    }
    r := ReadLists(f, offsets, metadata.value, summary.value);
  }

  /** The tag, mean and full-data parts of `DataFile.__init__`, driven by the metadata. */
  method ReadLists(f: FileReader, offsets: seq<u32>, m: MetaData, summary: SummaryData) returns (r: Result<DataFile>)
    requires |offsets| == N_OFFSETS
    modifies f
    ensures r == ParseLists(f.data, offsets, m, summary)
  {
    var tags := ReadTagDescriptions(f, offsets, m.tagInfoLengths);
    f.Seek(offsets[N_TAGS + 2] as nat);
    var means := ReadRecordsFrom(f, m.nMeanSections as nat, MEAN_SIZE, DecodeMeanData);
    if means.Err? {
      return Err(means.error);
    }
    f.Seek(offsets[N_TAGS + 3] as nat);
    var n := m.nFullDataSections as nat;
    var chunk := f.Read(4 * n);
    var fullDataOffsets := UnpackU32s(n, chunk);
    if fullDataOffsets.Err? {
      return Err(fullDataOffsets.error);
    }
    var fullData := ReadFullRuns(f, fullDataOffsets.value, n);
    if fullData.Err? {
      return Err(fullData.error);
    }
    return Ok(DataFile(offsets, fullDataOffsets.value, m, summary, tags, means.value, fullData.value));
  }

  /** `DataFile(filename)` on a file whose contents are `data`. */
  method ReadDataFile(data: seq<u8>) returns (r: Result<DataFile>)
    ensures r == ParseDataFile(data)
  {
    var f := new FileReader(data);
    var table := f.Read(4 * N_OFFSETS);
    var offsets := UnpackU32s(N_OFFSETS, table);
    if offsets.Err? {
      return Err(offsets.error);
    }
    r := ReadSectionsFrom(f, offsets.value);
  }
}
