# Tribometer data file decoder, modelled in Dafny

`rr_python_file_reader/data_file.py` reads a tribometer's binary result file. The file begins with a table of nine absolute `u32` offsets. These point to:

- a metadata record;
- a summary record;
- four raw tag descriptions;
- an array of mean results;
- a second offset table.

Each entry of the second table points to one "full run": a header followed by `header.length` time-series points. The Python code works in two layers:

- Six fixed-width record classes: `Time`, `MetaData`, `SummaryData`, `MeanData`, `RunDataPoint` and `FullDataHeaders`. Each checks the length of the bytes it is given, then splits them into fields with `struct.unpack`.
- Two constructors that walk the file with `seek` and `read` and grow lists in loops: `FullRunData.__init__` and `DataFile.__init__`.

The model follows that split.

| file | module | contents |
|---|---|---|
| `wrappers.dfy` | `Wrappers` | `Result`, and the two errors the code can raise: a record's `ValueError` (`LengthMismatch`) and `struct.error` (`UnpackSizeMismatch`) |
| `bytes.dfy` | `Bytes` | bytes and fixed-width unsigned words; little-endian decoding and encoding, with both round trips |
| `struct_format.dfy` | `StructFormat` | the part of Python's `struct` module the formats use (`B`, `H`, `I`, `f`, `Ns`) in native mode: item sizes, alignment, `calcsize`, item offsets and `unpack` |
| `records.dfy` | `Records` | the six record classes: each format, its size, its decoder, the offset of each item, and each decoded field read directly from its bytes |
| `file_image.dfy` | `FileImage` | the opened file as a byte image, with a cursor class `FileReader` whose `Seek` and `Read` behave like `f.seek` and `f.read` |
| `sections.dfy` | `Sections` | what `FullRunData` and `DataFile` compute, as functions of the file image, and lemmas about what a successfully parsed file holds |
| `reader.dfy` | `Reader` | `FullRunData.__init__` and `DataFile.__init__` as they run: methods that move a `FileReader` and append to lists in loops. Each is proved to return exactly what the matching `Sections` function describes |

Assumptions about the platform:

- The formats have no byte-order prefix, so Python uses the machine's native order and alignment. The model assumes a little-endian machine with the usual x86-64 alignment: `H` on 2 bytes, `I` and `f` on 4 bytes, `B` and `s` on 1 byte.
- Under these assumptions `RunDataPoint` ("2B 2H I 3f") is 24 bytes wide. Bytes 6-7 are padding in front of the `I`. The other formats need no padding.

Behaviour the model follows from the code (data_file.py):

- A `f` item is kept as its raw 32-bit word (`Float32`). No IEEE-754 value is computed.
- `f.read(n)` at position `p` returns `data[min(p,|data|) .. min(p+n,|data|)]`. It is short only at the end of the file, and seeking past the end is allowed.
- A short read breaks a record only through that record's length check. It breaks an offset table only through `struct.unpack`.
- A tag description is read by `f.read` without a length check (line 172). A tag that runs past the end of the file is kept short and raises nothing.

How a parse is described:

- A Python exception becomes an `Err` result. It carries the kind of record and both sizes, so the lemmas can state which error occurs.
- `ParseDataFile` reads the offset table and then calls `ParseSections`. `ParseSections` decodes the metadata and summary records and hands the rest to `ParseLists`.
- `Sections.ParseSectionsParts` states that a successful file is `ParseLists` applied to its own metadata and summary. The lemmas about tags, means and full runs are therefore stated about `ParseLists`.

## Model

| member | source | states |
|---|---|---|
| Bytes.LittleEndianRoundTrip | rr_python_file_reader/data_file.py:163 | reading back the `n` little-endian bytes of any `x < 256^n` gives `x` |
| Bytes.LittleEndianBytesRoundTrip | rr_python_file_reader/data_file.py:163 | re-encoding the value of any byte string gives the same bytes, so two different byte strings of one width never decode to the same number |
| Bytes.LittleEndianFour | rr_python_file_reader/data_file.py:163 | four bytes read as an `I` are `b0 + 2^8 b1 + 2^16 b2 + 2^24 b3` |
| StructFormat.StartIsAlignedUp | rr_python_file_reader/data_file.py:113-114 | an item starts at the first multiple of its alignment at or after the end of the previous item |
| StructFormat.EndOfMonotone | rr_python_file_reader/data_file.py:113-114 | the layout never moves backwards: later items end no earlier |
| StructFormat.ItemInside | rr_python_file_reader/data_file.py:10 | every item of a format lies inside `calcsize` of that format |
| StructFormat.CalcSizeEnd | rr_python_file_reader/data_file.py:10 | `struct.calcsize` of a non-empty format is where its last item ends: native mode adds no padding after the last item |
| StructFormat.UnpackAt | rr_python_file_reader/data_file.py:27 | item `k` of the unpacked tuple is the item of its kind stored at item `k`'s offset |
| StructFormat.UnpackFits | rr_python_file_reader/data_file.py:27 | every unpacked item has the range of its code: a `B` below 2^8, an `H` below 2^16, an `I` below 2^32, an `Ns` exactly `N` bytes |
| StructFormat.Unpack | rr_python_file_reader/data_file.py:163 | `struct.unpack` succeeds exactly when the buffer has `calcsize` bytes; otherwise it fails with both sizes |
| StructFormat.RepeatUIntLayout | rr_python_file_reader/data_file.py:183 | in `"nI"` item `k` sits at byte `4k`, and the format is `4n` bytes |
| Records.U16At | rr_python_file_reader/data_file.py:113-120 | an `H` read at `p` is `data[p] + 256 * data[p+1]` |
| Records.U32At | rr_python_file_reader/data_file.py:163 | an `I` read at `p` is the little-endian value of `data[p..p+4]` |
| Records.RunDataPointPaddingIgnored | rr_python_file_reader/data_file.py:113-120 | two 24-byte inputs that differ only in bytes 6 and 7 decode to the same point |
| Records.DecodeTime | rr_python_file_reader/data_file.py:12-15 | `Time` succeeds exactly on 6 bytes; any other length raises the length error with 6 and the actual length |
| Records.TimeSize | rr_python_file_reader/data_file.py:9-10 | `calcsize("6B")` is 6 |
| Records.TimeFields | rr_python_file_reader/data_file.py:15 | hour, minute, second, day, month and year are bytes 0..5 unchanged, with no range check |
| Records.DecodeMetaData | rr_python_file_reader/data_file.py:24-27 | `MetaData` succeeds exactly on 92 bytes; otherwise it raises the length error with 92 and the actual length |
| Records.MetaDataSize | rr_python_file_reader/data_file.py:21-22 | the metadata format is 92 bytes |
| Records.MetaDataLayout | rr_python_file_reader/data_file.py:21-22 | the offset of each of the 32 items: time stamps at 0, 8, 32, 38, 44, 50 and 56; `n_mean_sections` at 72; `n_full_data_sections` at 74; the four tag lengths at 76..91 |
| Records.MetaDataFields | rr_python_file_reader/data_file.py:27-53 | every metadata field is the value stored at its offset: time stamps as 6 raw bytes, the pairs as two adjacent bytes, and `tag_info_lengths` as exactly four `I` words |
| Records.DecodeSummaryData | rr_python_file_reader/data_file.py:70-74 | `SummaryData` succeeds exactly on 64 bytes; otherwise it raises the length error with 64 and the actual length |
| Records.SummaryDataSize | rr_python_file_reader/data_file.py:67-68 | the summary format is 64 bytes |
| Records.SummaryDataLayout | rr_python_file_reader/data_file.py:67-68 | four tag bytes at 0..3, eleven float words at 4..47, four `I` words at 48..63 |
| Records.SummaryDataFields | rr_python_file_reader/data_file.py:74-91 | `tags` is the first four bytes; then the eleven float words and `test_number_dev_total`, `fault_codes`, `R1`, `R2`, each read from its offset in declared order |
| Records.DecodeMeanData | rr_python_file_reader/data_file.py:104-106 | `MeanData` succeeds exactly on 16 bytes; otherwise it raises the length error with 16 and the actual length |
| Records.MeanDataSize | rr_python_file_reader/data_file.py:101-102 | the mean format is 16 bytes |
| Records.MeanDataFields | rr_python_file_reader/data_file.py:107 | the four float words are bytes 0, 4, 8 and 12 |
| Records.DecodeRunDataPoint | rr_python_file_reader/data_file.py:116-118 | `RunDataPoint` succeeds exactly on 24 bytes; otherwise it raises the length error with 24 and the actual length |
| Records.RunDataPointSize | rr_python_file_reader/data_file.py:113-114 | the point format is 24 bytes, including 2 pad bytes |
| Records.RunDataPointLayout | rr_python_file_reader/data_file.py:113-114 | items at 0, 1, 2, 4, 8, 12, 16 and 20, so bytes 6-7 belong to no item |
| Records.RunDataPointFields | rr_python_file_reader/data_file.py:119-120 | progress and set_angle are bytes 0 and 1; set_speed and set_force are `H` at 2 and 4; millis_from_start is the `I` at 8; angle, fn and ft are the words at 12, 16 and 20 |
| Records.DecodeFullDataHeaders | rr_python_file_reader/data_file.py:131-133 | `FullDataHeaders` succeeds exactly on 24 bytes; otherwise it raises the length error with 24 and the actual length |
| Records.FullDataHeadersSize | rr_python_file_reader/data_file.py:128-129 | the header format is 24 bytes |
| Records.FullDataHeadersFields | rr_python_file_reader/data_file.py:134-135 | four float words at 0..15; rep and run are bytes 16 and 17; R1 is the `H` at 18; length is the `I` at 20 |
| FileImage.ReadAt | rr_python_file_reader/data_file.py:165 | `f.read(n)` never returns more than `n` bytes |
| FileImage.ReadAtShape | rr_python_file_reader/data_file.py:165 | a read returns all `n` bytes exactly when they lie inside the file; otherwise it returns the rest of the file, which is empty past its end |
| FileImage.ReadAtSplit | rr_python_file_reader/data_file.py:146-149 | two reads in a row return what one read of the combined length returns |
| FileImage.FileReader.Seek | rr_python_file_reader/data_file.py:164 | `f.seek(offset)` puts the cursor at `offset`, even past the end |
| FileImage.FileReader.Read | rr_python_file_reader/data_file.py:165 | `f.read(n)` returns the bytes at the cursor and moves the cursor past them |
| Sections.UnpackU32s | rr_python_file_reader/data_file.py:183 | unpacking `"nI"` succeeds exactly on `4n` bytes and gives `n` words; otherwise it fails with `4n` and the actual length |
| Sections.ReadU32sAt | rr_python_file_reader/data_file.py:181-183 | when the table at `start` unpacks, it lies in the file, and word `k` is the `u32` at `start + 4k` |
| Sections.RecordStartIsProduct | rr_python_file_reader/data_file.py:176-178 | record `i` of a run begins `width * i` bytes after the run does |
| Sections.RecordInside | rr_python_file_reader/data_file.py:176-178 | every record of a run ends no later than the run does |
| Sections.ReadRecords | rr_python_file_reader/data_file.py:177-178 | a successful run yields exactly `count` records |
| Sections.ReadRecordsAt | rr_python_file_reader/data_file.py:148-149 | record `i` of a successful run is the decoding of the `width` bytes where record `i` begins |
| Sections.ReadRecordsOk | rr_python_file_reader/data_file.py:177-178 | a run succeeds exactly when every one of its records decodes |
| Sections.ReadRecordsErr | rr_python_file_reader/data_file.py:177-178 | the first record that fails ends the run with that record's error |
| Sections.ReadRecordsInside | rr_python_file_reader/data_file.py:177-178 | a run that lies inside the file succeeds when each record accepts exactly `width` bytes |
| Sections.ReadRecordsPastEnd | rr_python_file_reader/data_file.py:177-178 | a run whose last record would end past the end of the file fails |
| Sections.ReadRecordsFit | rr_python_file_reader/data_file.py:177-178 | for records of exactly `width > 0` bytes, a run succeeds exactly when it is empty or `start + width * count` is within the file |
| Sections.ReadRecordsSlices | rr_python_file_reader/data_file.py:177-178 | record `i` of a successful run lies inside the file and is the decoding of the `width` bytes that begin at record `i`'s start |
| Sections.MeanSlices | rr_python_file_reader/data_file.py:175-178 | a successful run of means has `count` entries, and mean `i` is decoded from the 16 bytes that begin at its start, inside the file |
| Sections.ParseFullRun | rr_python_file_reader/data_file.py:145-149 | a decoded full run has exactly `headers.length` points |
| Sections.ParseFullRunOk | rr_python_file_reader/data_file.py:146-149 | a full run decodes exactly when its header lies in the file and its `length` points of 24 bytes also lie in the file |
| Sections.ParseFullRunHeader | rr_python_file_reader/data_file.py:146 | the header of a decoded run is the decoding of the 24 bytes at the run's offset |
| Sections.ParseFullRunPoint | rr_python_file_reader/data_file.py:147-149 | point `i` is the decoding of the 24 bytes at `pos + 24 + 24i`: the points follow the header back to back with no seek |
| Sections.ReadSectionsAt | rr_python_file_reader/data_file.py:187-189 | section `i` of a successful list is the section parsed at `offsets[i]`, in table order |
| Sections.ReadSections | rr_python_file_reader/data_file.py:187-189 | a successful list of sections has exactly `count` entries, one per offset read |
| Sections.ReadSectionsOk | rr_python_file_reader/data_file.py:187-189 | the list succeeds exactly when the section at every offset parses |
| Sections.ReadSectionsStep | rr_python_file_reader/data_file.py:189 | appending the section parsed at `offsets[i]` extends the list of `i` sections to `i + 1` |
| Sections.ReadSectionsErr | rr_python_file_reader/data_file.py:187-189 | the first section that fails ends the list with that section's error |
| Sections.ParseFullRuns | rr_python_file_reader/data_file.py:186-189 | a successful full-data list has one run per offset |
| Sections.ReadTags | rr_python_file_reader/data_file.py:169-172 | the tag loop yields one byte string per tag read |
| Sections.ReadTagsAt | rr_python_file_reader/data_file.py:170-172 | tag `i` is what `f.read(tag_info_lengths[i])` returns at `offsets[i + 2]` |
| Sections.ParseSections | rr_python_file_reader/data_file.py:163-189 | a parsed file keeps the offset table it was read with |
| Sections.ParseLists | rr_python_file_reader/data_file.py:169-189 | the lists are added to the offsets, metadata and summary read before them, which are left as they are |
| Sections.ParseDataFileShort | rr_python_file_reader/data_file.py:163 | a file shorter than 36 bytes fails in `struct.unpack` with 36 and its length |
| Sections.ParseDataFileOffset | rr_python_file_reader/data_file.py:163 | once a file parses, offset `k` is the `u32` at byte `4k` |
| Sections.ParseSectionsShortMetaData | rr_python_file_reader/data_file.py:164-165 | a metadata record running past the end of the file fails with the length error for 92 bytes and the bytes left |
| Sections.ParseSectionsShortSummary | rr_python_file_reader/data_file.py:166-167 | with the metadata in the file, a summary running past the end fails with the length error for 64 bytes and the bytes left |
| Sections.ParseSectionsRecords | rr_python_file_reader/data_file.py:164-167 | the metadata and summary of a parsed file lie in the file and are decoded from the 92 bytes at `offsets[0]` and the 64 bytes at `offsets[1]` |
| Sections.ParseListsTag | rr_python_file_reader/data_file.py:169-172 | there are exactly four tags; tag `i` is read at `offsets[i + 2]` with the requested length; a tag is shorter than requested only when it reaches the end of the file |
| Sections.ParseListsMean | rr_python_file_reader/data_file.py:175-178 | there are exactly `n_mean_sections` means; mean `i` is decoded from the 16 bytes at `offsets[6] + 16i` |
| Sections.ParseListsFullOffset | rr_python_file_reader/data_file.py:181-183 | the full-data table has `n_full_data_sections` entries; entry `i` is the `u32` at `offsets[7] + 4i` |
| Sections.ParseListsFullRun | rr_python_file_reader/data_file.py:186-189 | there are as many full runs as table entries, `n_full_data_sections`; run `i` is the one decoded at `full_data_offsets[i]` |
| Sections.ParseSectionsIgnoresLast | rr_python_file_reader/data_file.py:163-189 | `offsets[8]` is never read: changing it changes nothing but the stored table |
| Sections.ParseDataFile | rr_python_file_reader/data_file.py:161-163 | a parsed file keeps the whole table of nine offsets |
| Sections.ParseListsTags | rr_python_file_reader/data_file.py:169-172 | the four tags of a parsed list are each read at `offsets[i + 2]` with the length in `tag_info_lengths[i]` |
| Sections.ParseListsMeans | rr_python_file_reader/data_file.py:175-178 | there are `n_mean_sections` means, each inside the file and decoded from the 16 bytes where it begins after `offsets[6]` |
| Sections.ParseListsRuns | rr_python_file_reader/data_file.py:181-189 | there are `n_full_data_sections` table entries and as many runs, run `i` being the one parsed at entry `i` |
| Sections.ParseDataFileContents | rr_python_file_reader/data_file.py:161-189 | a parsed file is what its bytes say: metadata and summary decoded at `offsets[0]` and `offsets[1]`, the tags, the means and the full runs each read where the table points |
| Reader.ReadRecord | rr_python_file_reader/data_file.py:178 | one record decoded from `width` bytes at the cursor; on success the cursor moves `width` bytes |
| Reader.ReadRecordsFrom | rr_python_file_reader/data_file.py:175-178 | the append loop returns `ReadRecords` from the cursor, and on success leaves the cursor `width * count` bytes further on |
| Reader.ReadFullRunData | rr_python_file_reader/data_file.py:145-149 | `FullRunData(f)` returns `ParseFullRun` at the cursor; on success the cursor advances `24 + 24 * length` |
| Reader.ReadTagDescriptions | rr_python_file_reader/data_file.py:169-172 | the tag loop returns `ReadTags` over all four tags |
| Reader.ReadNextRun | rr_python_file_reader/data_file.py:188-189 | one pass of the full-data loop extends the runs read so far, or ends the whole list with its error |
| Reader.ReadFullRuns | rr_python_file_reader/data_file.py:186-189 | the full-data loop returns `ParseFullRuns` |
| Reader.ReadSectionsFrom | rr_python_file_reader/data_file.py:164-189 | everything after the offset table returns `ParseSections` |
| Reader.ReadLists | rr_python_file_reader/data_file.py:169-189 | the tag, mean and full-data parts return `ParseLists` |
| Reader.ReadDataFile | rr_python_file_reader/data_file.py:161-189 | `DataFile(filename)` on a file with contents `data` returns `ParseDataFile(data)` |

## Left out

- `__repr__` of every class: display formatting only.
- `setup.py`: packaging metadata, no logic.
- IEEE-754: the `f` fields keep their raw 32-bit words. No floating-point value, NaN or rounding is modelled.
- Files: `open`, the `with` block and closing the file are not modelled. The file is its byte contents, passed to `Reader.ReadDataFile`. A missing file or an I/O error cannot occur in the model.
- Platform: other byte orders and other native alignments are not modelled. The model fixes little-endian order and x86-64 alignment.
- Partial objects: when an exception ends a constructor, the Python object keeps the fields it already assigned. The model returns only the error.
- Records.Byte, Records.Short, Records.Word, Records.Real, Records.Stamp: each has a fallback for a value of the wrong kind. No decoder can reach it, and the `*Fields` lemmas show the decoders never use it.
- Error values: Python raises a bare `ValueError` or `struct.error`, which names neither the record kind nor the length actually read. The model's `Error` adds both, so that the lemmas can say which error occurs. A caller that only tests for failure sees the same outcome.
