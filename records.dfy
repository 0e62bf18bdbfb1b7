/**
 * The fixed-width records of the file (rr_python_file_reader/data_file.py:8-140).
 * Each decoder checks that its slice has exactly the size of its `struct`
 * format and then assigns the unpacked items to the record's fields by position.
 */
module Records {
  import opened Bytes
  import opened Wrappers
  import opened StructFormat

  /** The number of tag descriptions in a file. */
  const N_TAGS: nat := 4

  type TagLengths = s: seq<u32> | |s| == N_TAGS witness [0, 0, 0, 0]
  type TagBytes = s: seq<u8> | |s| == N_TAGS witness [0, 0, 0, 0]

  /** The unsigned short at offset `p`, least significant byte first. */
  function U16At(data: seq<u8>, p: nat): (r: u16)
    requires p + 2 <= |data|
    ensures r as int == data[p] as int + 0x100 * data[p + 1] as int
  {
    Pow256Four();
    LittleEndianTwo(data[p .. p + 2]);
    LittleEndian(data[p .. p + 2]) as u16
  }

  /** The unsigned int at offset `p`, least significant byte first. */
  function U32At(data: seq<u8>, p: nat): (r: u32)
    requires p + 4 <= |data|
    ensures r as int == data[p] as int + 0x100 * data[p + 1] as int
                        + 0x1_0000 * data[p + 2] as int + 0x100_0000 * data[p + 3] as int
  {
    Pow256Four();
    LittleEndianFour(data[p .. p + 4]);
    LittleEndian(data[p .. p + 4]) as u32
  }

  lemma SameU16(a: seq<u8>, b: seq<u8>, p: nat)
    requires p + 2 <= |a| && p + 2 <= |b|
    requires a[p] == b[p] && a[p + 1] == b[p + 1]
    ensures U16At(a, p) == U16At(b, p)
  {
  }

  lemma SameU32(a: seq<u8>, b: seq<u8>, p: nat)
    requires p + 4 <= |a| && p + 4 <= |b|
    requires a[p] == b[p] && a[p + 1] == b[p + 1] && a[p + 2] == b[p + 2] && a[p + 3] == b[p + 3]
    ensures U32At(a, p) == U32At(b, p)
  {
  }

  /** The raw bits of the float at offset `p`. */
  function F32At(data: seq<u8>, p: nat): (r: Float32)
    requires p + 4 <= |data|
    ensures r.bits == U32At(data, p)
  {
    Float32(U32At(data, p))
  }

  // The unpacked items as field values. `UnpackExact` only yields items that
  // fit their codes (`Fits`), so the fall-back values are never taken.

  /** A `B` item. */
  function Byte(v: Value): u8 { if v.IntValue? && v.n < 0x100 then v.n as u8 else 0 }

  /** An `H` item. */
  function Short(v: Value): u16 { if v.IntValue? && v.n < 0x1_0000 then v.n as u16 else 0 }

  /** An `I` item. */
  function Word(v: Value): u32 { if v.IntValue? && v.n < 0x1_0000_0000 then v.n as u32 else 0 }

  /** An `f` item. */
  function Real(v: Value): Float32 { if v.FloatValue? then v.f else Float32(0) }

  // ---------------------------------------------------------------- Items

  /** The timestamp whose six bytes start at offset `p`. */
  function TimeAt(data: seq<u8>, p: nat): Time
    requires p + 6 <= |data|
  {
    Time(data[p], data[p + 1], data[p + 2], data[p + 3], data[p + 4], data[p + 5])
  }

  lemma ByteItem(data: seq<u8>, p: nat)
    requires p + 1 <= |data|
    ensures Byte(UnpackItem(UChar, data, p)) == data[p]
  {
    LittleEndianOne(data[p .. p + 1]);
  }

  lemma ShortItem(data: seq<u8>, p: nat)
    requires p + 2 <= |data|
    ensures Short(UnpackItem(UShort, data, p)) == U16At(data, p)
  {
    Pow256Four();
  }

  lemma WordItem(data: seq<u8>, p: nat)
    requires p + 4 <= |data|
    ensures Word(UnpackItem(UInt, data, p)) == U32At(data, p)
  {
    Pow256Four();
  }

  lemma RealItem(data: seq<u8>, p: nat)
    requires p + 4 <= |data|
    ensures Real(UnpackItem(Float, data, p)) == F32At(data, p)
  {
  }

  lemma StampItem(data: seq<u8>, p: nat)
    requires p + 6 <= |data|
    ensures Stamp(UnpackItem(Chars(6), data, p)) == TimeAt(data, p)
  {
    var bytes := data[p .. p + 6];
    TimeFields(bytes);
  }

  // ---------------------------------------------------------------- Time

  /** "6B" */
  const TIME_FORMAT: seq<Code> := Repeat(6, UChar)
  /** `struct.calcsize` of the format, as `TimeSize` proves. */
  const TIME_SIZE: nat := 6

  /** A packed timestamp; the bytes are kept as read, with no range check. */
  datatype Time = Time(hour: u8, minute: u8, second: u8, day: u8, month: u8, year: u8)

  /** The Time fields, assigned from the unpacked items by position. */
  function TimeOf(u: seq<Value>): Time
    requires |u| == 6
  {
    Time(Byte(u[0]), Byte(u[1]), Byte(u[2]), Byte(u[3]), Byte(u[4]), Byte(u[5]))
  }

  function DecodeTime(data: seq<u8>): (r: Result<Time>)
    ensures r.Ok? <==> |data| == TIME_SIZE
    ensures r.Err? ==> r.error == LengthMismatch(TimeRecord, TIME_SIZE, |data|)
  {
    if |data| != TIME_SIZE then Err(LengthMismatch(TimeRecord, TIME_SIZE, |data|))
    else
      TimeSize();
      Ok(TimeOf(UnpackExact(TIME_FORMAT, data)))
  }


  /** The items of `TIME_FORMAT`, one by one. */
  lemma TimeCodes()
    ensures |TIME_FORMAT| == 6
    ensures TIME_FORMAT[0] == UChar
      && TIME_FORMAT[1] == UChar
      && TIME_FORMAT[2] == UChar
      && TIME_FORMAT[3] == UChar
      && TIME_FORMAT[4] == UChar
      && TIME_FORMAT[5] == UChar
  {
  }

  /** The format's `struct.calcsize`. */
  lemma TimeSize()
    ensures CalcSize(TIME_FORMAT) == TIME_SIZE
  {
    TimeCodes();
    TimeEnds();
  }

  /** The end of every prefix of `TIME_FORMAT`, step by step. */
  lemma TimeEnds()
    ensures EndOf(TIME_FORMAT, 1) == 1
      && EndOf(TIME_FORMAT, 2) == 2
      && EndOf(TIME_FORMAT, 3) == 3
      && EndOf(TIME_FORMAT, 4) == 4
      && EndOf(TIME_FORMAT, 5) == 5
      && EndOf(TIME_FORMAT, 6) == 6
  {
    TimeCodes();
    EndOfStep(TIME_FORMAT, 0, UChar, 0, 1);
    EndOfStep(TIME_FORMAT, 1, UChar, 1, 2);
    EndOfStep(TIME_FORMAT, 2, UChar, 2, 3);
    EndOfStep(TIME_FORMAT, 3, UChar, 3, 4);
    EndOfStep(TIME_FORMAT, 4, UChar, 4, 5);
    EndOfStep(TIME_FORMAT, 5, UChar, 5, 6);
  }

  /** Each field of a decoded Time read straight from its offset in the record. */
  lemma TimeFields(data: seq<u8>)
    requires |data| == 6
    ensures DecodeTime(data) == Ok(Time(data[0], data[1], data[2], data[3], data[4], data[5]))
  {
    TimeLayout();
    TimeCodes();
    UnpackAt(TIME_FORMAT, data, 0);
    ByteItem(data, 0);
    UnpackAt(TIME_FORMAT, data, 1);
    ByteItem(data, 1);
    UnpackAt(TIME_FORMAT, data, 2);
    ByteItem(data, 2);
    UnpackAt(TIME_FORMAT, data, 3);
    ByteItem(data, 3);
    UnpackAt(TIME_FORMAT, data, 4);
    ByteItem(data, 4);
    UnpackAt(TIME_FORMAT, data, 5);
    ByteItem(data, 5);
  }

  lemma TimeLayout()
    ensures Offset(TIME_FORMAT, 0) == 0
      && Offset(TIME_FORMAT, 1) == 1
      && Offset(TIME_FORMAT, 2) == 2
      && Offset(TIME_FORMAT, 3) == 3
      && Offset(TIME_FORMAT, 4) == 4
      && Offset(TIME_FORMAT, 5) == 5
    ensures CalcSize(TIME_FORMAT) == TIME_SIZE
  {
    TimeCodes();
    TimeEnds();
  }

  // ---------------------------------------------------------------- MetaData

  /** "6s H 6s 2B 4B 4B 2I 6s 6s 6s 6s 6s B B I B B H H H 4I" */
  const METADATA_FORMAT: seq<Code> :=
    [Chars(6), UShort, Chars(6)] + (Repeat(2, UChar) + (Repeat(4, UChar) + (Repeat(4, UChar) + (
    Repeat(2, UInt) + (Repeat(5, Chars(6)) + ([UChar, UChar, UInt, UChar, UChar, UShort, UShort, UShort] +
    Repeat(4, UInt)))))))
  /** `struct.calcsize` of the format, as `MetaDataSize` proves. */
  const METADATA_SIZE: nat := 92

  datatype MetaData = MetaData(
    fileCreation: Time,
    r1: u16,
    gpsFileCreation: Time,
    softwareVersionPatch: u8,
    headSoftwareVersionPatch: u8,
    hardware: (u8, u8),
    software: (u8, u8),
    headSoftware: (u8, u8),
    headHardware: (u8, u8),
    deviceId: u32,
    headId: u32,
    lastService: Time,
    loadCellsLastTestMeasurement: Time,
    loadCellsLastCalibration: Time,
    railTemperatureLastCalibration: Time,
    airTemperatureLastCalibration: Time,
    repeats: u8,
    runs: u8,
    averagingMode: u32,
    fullData: u8,
    r2: u8,
    r3: u16,
    nMeanSections: u16,
    nFullDataSections: u16,
    /** The byte length of each tag description. */
    tagInfoLengths: TagLengths)

  /** `Time(item)` on a `6s` item, which always has the length `Time` demands. */
  function Stamp(v: Value): Time
  {
    if v.BytesValue? && DecodeTime(v.bytes).Ok? then DecodeTime(v.bytes).value else Time(0, 0, 0, 0, 0, 0)
  }


  /** The MetaData fields, assigned from the unpacked items by position. */
  function MetaDataOf(u: seq<Value>): MetaData
    requires |u| == 32
  {
    MetaData(
      Stamp(u[0]), Short(u[1]), Stamp(u[2]), Byte(u[3]), Byte(u[4]),
      (Byte(u[5]), Byte(u[6])), (Byte(u[7]), Byte(u[8])),
      (Byte(u[9]), Byte(u[10])), (Byte(u[11]), Byte(u[12])),
      Word(u[13]), Word(u[14]),
      Stamp(u[15]), Stamp(u[16]), Stamp(u[17]), Stamp(u[18]), Stamp(u[19]),
      Byte(u[20]), Byte(u[21]), Word(u[22]), Byte(u[23]), Byte(u[24]),
      Short(u[25]), Short(u[26]), Short(u[27]),
      [Word(u[28]), Word(u[29]), Word(u[30]), Word(u[31])])
  }

  function DecodeMetaData(data: seq<u8>): (r: Result<MetaData>)
    ensures r.Ok? <==> |data| == METADATA_SIZE
    ensures r.Err? ==> r.error == LengthMismatch(MetaDataRecord, METADATA_SIZE, |data|)
  {
    if |data| != METADATA_SIZE then Err(LengthMismatch(MetaDataRecord, METADATA_SIZE, |data|))
    else
      MetaDataSize();
      Ok(MetaDataOf(UnpackExact(METADATA_FORMAT, data)))
  }

  /** The items of `METADATA_FORMAT`, one by one. */
  lemma MetaDataCodes()
    ensures |METADATA_FORMAT| == 32
    ensures METADATA_FORMAT[0] == Chars(6)
      && METADATA_FORMAT[1] == UShort
      && METADATA_FORMAT[2] == Chars(6)
      && METADATA_FORMAT[3] == UChar
      && METADATA_FORMAT[4] == UChar
      && METADATA_FORMAT[5] == UChar
      && METADATA_FORMAT[6] == UChar
      && METADATA_FORMAT[7] == UChar
      && METADATA_FORMAT[8] == UChar
      && METADATA_FORMAT[9] == UChar
      && METADATA_FORMAT[10] == UChar
      && METADATA_FORMAT[11] == UChar
      && METADATA_FORMAT[12] == UChar
      && METADATA_FORMAT[13] == UInt
      && METADATA_FORMAT[14] == UInt
      && METADATA_FORMAT[15] == Chars(6)
      && METADATA_FORMAT[16] == Chars(6)
      && METADATA_FORMAT[17] == Chars(6)
      && METADATA_FORMAT[18] == Chars(6)
      && METADATA_FORMAT[19] == Chars(6)
      && METADATA_FORMAT[20] == UChar
      && METADATA_FORMAT[21] == UChar
      && METADATA_FORMAT[22] == UInt
      && METADATA_FORMAT[23] == UChar
      && METADATA_FORMAT[24] == UChar
      && METADATA_FORMAT[25] == UShort
      && METADATA_FORMAT[26] == UShort
      && METADATA_FORMAT[27] == UShort
      && METADATA_FORMAT[28] == UInt
      && METADATA_FORMAT[29] == UInt
      && METADATA_FORMAT[30] == UInt
      && METADATA_FORMAT[31] == UInt
  {
  }

  /** The format's `struct.calcsize`. */
  lemma MetaDataSize()
    ensures CalcSize(METADATA_FORMAT) == METADATA_SIZE
  {
    MetaDataCodes();
    MetaDataEnds();
  }

  /** The end of every prefix of `METADATA_FORMAT`, step by step. */
  lemma MetaDataEnds()
    ensures EndOf(METADATA_FORMAT, 1) == 6
      && EndOf(METADATA_FORMAT, 2) == 8
      && EndOf(METADATA_FORMAT, 3) == 14
      && EndOf(METADATA_FORMAT, 4) == 15
      && EndOf(METADATA_FORMAT, 5) == 16
      && EndOf(METADATA_FORMAT, 6) == 17
      && EndOf(METADATA_FORMAT, 7) == 18
      && EndOf(METADATA_FORMAT, 8) == 19
      && EndOf(METADATA_FORMAT, 9) == 20
      && EndOf(METADATA_FORMAT, 10) == 21
      && EndOf(METADATA_FORMAT, 11) == 22
      && EndOf(METADATA_FORMAT, 12) == 23
      && EndOf(METADATA_FORMAT, 13) == 24
      && EndOf(METADATA_FORMAT, 14) == 28
      && EndOf(METADATA_FORMAT, 15) == 32
      && EndOf(METADATA_FORMAT, 16) == 38
      && EndOf(METADATA_FORMAT, 17) == 44
      && EndOf(METADATA_FORMAT, 18) == 50
      && EndOf(METADATA_FORMAT, 19) == 56
      && EndOf(METADATA_FORMAT, 20) == 62
      && EndOf(METADATA_FORMAT, 21) == 63
      && EndOf(METADATA_FORMAT, 22) == 64
      && EndOf(METADATA_FORMAT, 23) == 68
      && EndOf(METADATA_FORMAT, 24) == 69
      && EndOf(METADATA_FORMAT, 25) == 70
      && EndOf(METADATA_FORMAT, 26) == 72
      && EndOf(METADATA_FORMAT, 27) == 74
      && EndOf(METADATA_FORMAT, 28) == 76
      && EndOf(METADATA_FORMAT, 29) == 80
      && EndOf(METADATA_FORMAT, 30) == 84
      && EndOf(METADATA_FORMAT, 31) == 88
      && EndOf(METADATA_FORMAT, 32) == 92
  {
    MetaDataCodes();
    EndOfStep(METADATA_FORMAT, 0, Chars(6), 0, 6);
    EndOfStep(METADATA_FORMAT, 1, UShort, 6, 8);
    EndOfStep(METADATA_FORMAT, 2, Chars(6), 8, 14);
    EndOfStep(METADATA_FORMAT, 3, UChar, 14, 15);
    EndOfStep(METADATA_FORMAT, 4, UChar, 15, 16);
    EndOfStep(METADATA_FORMAT, 5, UChar, 16, 17);
    EndOfStep(METADATA_FORMAT, 6, UChar, 17, 18);
    EndOfStep(METADATA_FORMAT, 7, UChar, 18, 19);
    EndOfStep(METADATA_FORMAT, 8, UChar, 19, 20);
    EndOfStep(METADATA_FORMAT, 9, UChar, 20, 21);
    EndOfStep(METADATA_FORMAT, 10, UChar, 21, 22);
    EndOfStep(METADATA_FORMAT, 11, UChar, 22, 23);
    EndOfStep(METADATA_FORMAT, 12, UChar, 23, 24);
    EndOfStep(METADATA_FORMAT, 13, UInt, 24, 28);
    EndOfStep(METADATA_FORMAT, 14, UInt, 28, 32);
    EndOfStep(METADATA_FORMAT, 15, Chars(6), 32, 38);
    EndOfStep(METADATA_FORMAT, 16, Chars(6), 38, 44);
    EndOfStep(METADATA_FORMAT, 17, Chars(6), 44, 50);
    EndOfStep(METADATA_FORMAT, 18, Chars(6), 50, 56);
    EndOfStep(METADATA_FORMAT, 19, Chars(6), 56, 62);
    EndOfStep(METADATA_FORMAT, 20, UChar, 62, 63);
    EndOfStep(METADATA_FORMAT, 21, UChar, 63, 64);
    EndOfStep(METADATA_FORMAT, 22, UInt, 64, 68);
    EndOfStep(METADATA_FORMAT, 23, UChar, 68, 69);
    EndOfStep(METADATA_FORMAT, 24, UChar, 69, 70);
    EndOfStep(METADATA_FORMAT, 25, UShort, 70, 72);
    EndOfStep(METADATA_FORMAT, 26, UShort, 72, 74);
    EndOfStep(METADATA_FORMAT, 27, UShort, 74, 76);
    EndOfStep(METADATA_FORMAT, 28, UInt, 76, 80);
    EndOfStep(METADATA_FORMAT, 29, UInt, 80, 84);
    EndOfStep(METADATA_FORMAT, 30, UInt, 84, 88);
    EndOfStep(METADATA_FORMAT, 31, UInt, 88, 92);
  }

  lemma MetaDataItems8(data: seq<u8>)
    requires |data| == 92 && |data| == CalcSize(METADATA_FORMAT)
    ensures var u := UnpackExact(METADATA_FORMAT, data);
      Stamp(u[0]) == TimeAt(data, 0)
      && Short(u[1]) == U16At(data, 6)
      && Stamp(u[2]) == TimeAt(data, 8)
      && Byte(u[3]) == data[14]
      && Byte(u[4]) == data[15]
      && Byte(u[5]) == data[16]
      && Byte(u[6]) == data[17]
      && Byte(u[7]) == data[18]
  {
    MetaDataLayout();
    MetaDataCodes();
    UnpackAt(METADATA_FORMAT, data, 0);
    StampItem(data, 0);
    UnpackAt(METADATA_FORMAT, data, 1);
    ShortItem(data, 6);
    UnpackAt(METADATA_FORMAT, data, 2);
    StampItem(data, 8);
    UnpackAt(METADATA_FORMAT, data, 3);
    ByteItem(data, 14);
    UnpackAt(METADATA_FORMAT, data, 4);
    ByteItem(data, 15);
    UnpackAt(METADATA_FORMAT, data, 5);
    ByteItem(data, 16);
    UnpackAt(METADATA_FORMAT, data, 6);
    ByteItem(data, 17);
    UnpackAt(METADATA_FORMAT, data, 7);
    ByteItem(data, 18);
  }

  lemma MetaDataItems16(data: seq<u8>)
    requires |data| == 92 && |data| == CalcSize(METADATA_FORMAT)
    ensures var u := UnpackExact(METADATA_FORMAT, data);
      Byte(u[8]) == data[19]
      && Byte(u[9]) == data[20]
      && Byte(u[10]) == data[21]
      && Byte(u[11]) == data[22]
      && Byte(u[12]) == data[23]
      && Word(u[13]) == U32At(data, 24)
      && Word(u[14]) == U32At(data, 28)
      && Stamp(u[15]) == TimeAt(data, 32)
  {
    MetaDataLayout();
    MetaDataCodes();
    UnpackAt(METADATA_FORMAT, data, 8);
    ByteItem(data, 19);
    UnpackAt(METADATA_FORMAT, data, 9);
    ByteItem(data, 20);
    UnpackAt(METADATA_FORMAT, data, 10);
    ByteItem(data, 21);
    UnpackAt(METADATA_FORMAT, data, 11);
    ByteItem(data, 22);
    UnpackAt(METADATA_FORMAT, data, 12);
    ByteItem(data, 23);
    UnpackAt(METADATA_FORMAT, data, 13);
    WordItem(data, 24);
    UnpackAt(METADATA_FORMAT, data, 14);
    WordItem(data, 28);
    UnpackAt(METADATA_FORMAT, data, 15);
    StampItem(data, 32);
  }

  lemma MetaDataItems24(data: seq<u8>)
    requires |data| == 92 && |data| == CalcSize(METADATA_FORMAT)
    ensures var u := UnpackExact(METADATA_FORMAT, data);
      Stamp(u[16]) == TimeAt(data, 38)
      && Stamp(u[17]) == TimeAt(data, 44)
      && Stamp(u[18]) == TimeAt(data, 50)
      && Stamp(u[19]) == TimeAt(data, 56)
      && Byte(u[20]) == data[62]
      && Byte(u[21]) == data[63]
      && Word(u[22]) == U32At(data, 64)
      && Byte(u[23]) == data[68]
  {
    MetaDataLayout();
    MetaDataCodes();
    UnpackAt(METADATA_FORMAT, data, 16);
    StampItem(data, 38);
    UnpackAt(METADATA_FORMAT, data, 17);
    StampItem(data, 44);
    UnpackAt(METADATA_FORMAT, data, 18);
    StampItem(data, 50);
    UnpackAt(METADATA_FORMAT, data, 19);
    StampItem(data, 56);
    UnpackAt(METADATA_FORMAT, data, 20);
    ByteItem(data, 62);
    UnpackAt(METADATA_FORMAT, data, 21);
    ByteItem(data, 63);
    UnpackAt(METADATA_FORMAT, data, 22);
    WordItem(data, 64);
    UnpackAt(METADATA_FORMAT, data, 23);
    ByteItem(data, 68);
  }

  lemma MetaDataItems32(data: seq<u8>)
    requires |data| == 92 && |data| == CalcSize(METADATA_FORMAT)
    ensures var u := UnpackExact(METADATA_FORMAT, data);
      Byte(u[24]) == data[69]
      && Short(u[25]) == U16At(data, 70)
      && Short(u[26]) == U16At(data, 72)
      && Short(u[27]) == U16At(data, 74)
      && Word(u[28]) == U32At(data, 76)
      && Word(u[29]) == U32At(data, 80)
      && Word(u[30]) == U32At(data, 84)
      && Word(u[31]) == U32At(data, 88)
  {
    MetaDataLayout();
    MetaDataCodes();
    UnpackAt(METADATA_FORMAT, data, 24);
    ByteItem(data, 69);
    UnpackAt(METADATA_FORMAT, data, 25);
    ShortItem(data, 70);
    UnpackAt(METADATA_FORMAT, data, 26);
    ShortItem(data, 72);
    UnpackAt(METADATA_FORMAT, data, 27);
    ShortItem(data, 74);
    UnpackAt(METADATA_FORMAT, data, 28);
    WordItem(data, 76);
    UnpackAt(METADATA_FORMAT, data, 29);
    WordItem(data, 80);
    UnpackAt(METADATA_FORMAT, data, 30);
    WordItem(data, 84);
    UnpackAt(METADATA_FORMAT, data, 31);
    WordItem(data, 88);
  }

  /** Each field of a decoded MetaData read straight from its offset in the record. */
  lemma MetaDataFields(data: seq<u8>)
    requires |data| == 92
    ensures DecodeMetaData(data) == Ok(MetaData(
        TimeAt(data, 0), U16At(data, 6), TimeAt(data, 8), data[14], data[15],
        (data[16], data[17]), (data[18], data[19]),
        (data[20], data[21]), (data[22], data[23]),
        U32At(data, 24), U32At(data, 28),
        TimeAt(data, 32), TimeAt(data, 38), TimeAt(data, 44), TimeAt(data, 50), TimeAt(data, 56),
        data[62], data[63], U32At(data, 64), data[68], data[69],
        U16At(data, 70), U16At(data, 72), U16At(data, 74),
        [U32At(data, 76), U32At(data, 80), U32At(data, 84), U32At(data, 88)]))
  {
    MetaDataLayout();
    MetaDataItems8(data);
    MetaDataItems16(data);
    MetaDataItems24(data);
    MetaDataItems32(data);
  }

  lemma MetaDataLayout()
    ensures Offset(METADATA_FORMAT, 0) == 0
      && Offset(METADATA_FORMAT, 1) == 6
      && Offset(METADATA_FORMAT, 2) == 8
      && Offset(METADATA_FORMAT, 3) == 14
      && Offset(METADATA_FORMAT, 4) == 15
      && Offset(METADATA_FORMAT, 5) == 16
      && Offset(METADATA_FORMAT, 6) == 17
      && Offset(METADATA_FORMAT, 7) == 18
      && Offset(METADATA_FORMAT, 8) == 19
      && Offset(METADATA_FORMAT, 9) == 20
      && Offset(METADATA_FORMAT, 10) == 21
      && Offset(METADATA_FORMAT, 11) == 22
      && Offset(METADATA_FORMAT, 12) == 23
      && Offset(METADATA_FORMAT, 13) == 24
      && Offset(METADATA_FORMAT, 14) == 28
      && Offset(METADATA_FORMAT, 15) == 32
      && Offset(METADATA_FORMAT, 16) == 38
      && Offset(METADATA_FORMAT, 17) == 44
      && Offset(METADATA_FORMAT, 18) == 50
      && Offset(METADATA_FORMAT, 19) == 56
      && Offset(METADATA_FORMAT, 20) == 62
      && Offset(METADATA_FORMAT, 21) == 63
      && Offset(METADATA_FORMAT, 22) == 64
      && Offset(METADATA_FORMAT, 23) == 68
      && Offset(METADATA_FORMAT, 24) == 69
      && Offset(METADATA_FORMAT, 25) == 70
      && Offset(METADATA_FORMAT, 26) == 72
      && Offset(METADATA_FORMAT, 27) == 74
      && Offset(METADATA_FORMAT, 28) == 76
      && Offset(METADATA_FORMAT, 29) == 80
      && Offset(METADATA_FORMAT, 30) == 84
      && Offset(METADATA_FORMAT, 31) == 88
    ensures CalcSize(METADATA_FORMAT) == METADATA_SIZE
  {
    MetaDataCodes();
    MetaDataEnds();
  }

  // ---------------------------------------------------------------- SummaryData

  /** "4B 11f 4I" */
  const SUMMARY_FORMAT: seq<Code> := Repeat(4, UChar) + (Repeat(11, Float) + Repeat(4, UInt))
  /** `struct.calcsize` of the format, as `SummaryDataSize` proves. */
  const SUMMARY_SIZE: nat := 64

  datatype SummaryData = SummaryData(
    tags: TagBytes,
    railHeadTemperature: Float32,
    humidity: Float32,
    airTemperature: Float32,
    airPressure: Float32,
    incline: Float32,
    roll: Float32,
    latitude: Float32,
    longitude: Float32,
    runCofMax: Float32,
    runCofMin: Float32,
    covFnMax: Float32,
    testNumberDevTotal: u32,
    faultCodes: u32,
    r1: u32,
    r2: u32)

  /** The SummaryData fields, assigned from the unpacked items by position. */
  function SummaryDataOf(u: seq<Value>): SummaryData
    requires |u| == 19
  {
    SummaryData(
      [Byte(u[0]), Byte(u[1]), Byte(u[2]), Byte(u[3])],
      Real(u[4]), Real(u[5]), Real(u[6]), Real(u[7]), Real(u[8]), Real(u[9]), Real(u[10]), Real(u[11]), Real(u[12]), Real(u[13]), Real(u[14]),
      Word(u[15]), Word(u[16]), Word(u[17]), Word(u[18]))
  }

  function DecodeSummaryData(data: seq<u8>): (r: Result<SummaryData>)
    ensures r.Ok? <==> |data| == SUMMARY_SIZE
    ensures r.Err? ==> r.error == LengthMismatch(SummaryDataRecord, SUMMARY_SIZE, |data|)
  {
    if |data| != SUMMARY_SIZE then Err(LengthMismatch(SummaryDataRecord, SUMMARY_SIZE, |data|))
    else
      SummaryDataSize();
      Ok(SummaryDataOf(UnpackExact(SUMMARY_FORMAT, data)))
  }


  /** The items of `SUMMARY_FORMAT`, one by one. */
  lemma SummaryDataCodes()
    ensures |SUMMARY_FORMAT| == 19
    ensures SUMMARY_FORMAT[0] == UChar
      && SUMMARY_FORMAT[1] == UChar
      && SUMMARY_FORMAT[2] == UChar
      && SUMMARY_FORMAT[3] == UChar
      && SUMMARY_FORMAT[4] == Float
      && SUMMARY_FORMAT[5] == Float
      && SUMMARY_FORMAT[6] == Float
      && SUMMARY_FORMAT[7] == Float
      && SUMMARY_FORMAT[8] == Float
      && SUMMARY_FORMAT[9] == Float
      && SUMMARY_FORMAT[10] == Float
      && SUMMARY_FORMAT[11] == Float
      && SUMMARY_FORMAT[12] == Float
      && SUMMARY_FORMAT[13] == Float
      && SUMMARY_FORMAT[14] == Float
      && SUMMARY_FORMAT[15] == UInt
      && SUMMARY_FORMAT[16] == UInt
      && SUMMARY_FORMAT[17] == UInt
      && SUMMARY_FORMAT[18] == UInt
  {
  }

  /** The format's `struct.calcsize`. */
  lemma SummaryDataSize()
    ensures CalcSize(SUMMARY_FORMAT) == SUMMARY_SIZE
  {
    SummaryDataCodes();
    SummaryDataEnds();
  }

  /** The end of every prefix of `SUMMARY_FORMAT`, step by step. */
  lemma SummaryDataEnds()
    ensures EndOf(SUMMARY_FORMAT, 1) == 1
      && EndOf(SUMMARY_FORMAT, 2) == 2
      && EndOf(SUMMARY_FORMAT, 3) == 3
      && EndOf(SUMMARY_FORMAT, 4) == 4
      && EndOf(SUMMARY_FORMAT, 5) == 8
      && EndOf(SUMMARY_FORMAT, 6) == 12
      && EndOf(SUMMARY_FORMAT, 7) == 16
      && EndOf(SUMMARY_FORMAT, 8) == 20
      && EndOf(SUMMARY_FORMAT, 9) == 24
      && EndOf(SUMMARY_FORMAT, 10) == 28
      && EndOf(SUMMARY_FORMAT, 11) == 32
      && EndOf(SUMMARY_FORMAT, 12) == 36
      && EndOf(SUMMARY_FORMAT, 13) == 40
      && EndOf(SUMMARY_FORMAT, 14) == 44
      && EndOf(SUMMARY_FORMAT, 15) == 48
      && EndOf(SUMMARY_FORMAT, 16) == 52
      && EndOf(SUMMARY_FORMAT, 17) == 56
      && EndOf(SUMMARY_FORMAT, 18) == 60
      && EndOf(SUMMARY_FORMAT, 19) == 64
  {
    SummaryDataCodes();
    EndOfStep(SUMMARY_FORMAT, 0, UChar, 0, 1);
    EndOfStep(SUMMARY_FORMAT, 1, UChar, 1, 2);
    EndOfStep(SUMMARY_FORMAT, 2, UChar, 2, 3);
    EndOfStep(SUMMARY_FORMAT, 3, UChar, 3, 4);
    EndOfStep(SUMMARY_FORMAT, 4, Float, 4, 8);
    EndOfStep(SUMMARY_FORMAT, 5, Float, 8, 12);
    EndOfStep(SUMMARY_FORMAT, 6, Float, 12, 16);
    EndOfStep(SUMMARY_FORMAT, 7, Float, 16, 20);
    EndOfStep(SUMMARY_FORMAT, 8, Float, 20, 24);
    EndOfStep(SUMMARY_FORMAT, 9, Float, 24, 28);
    EndOfStep(SUMMARY_FORMAT, 10, Float, 28, 32);
    EndOfStep(SUMMARY_FORMAT, 11, Float, 32, 36);
    EndOfStep(SUMMARY_FORMAT, 12, Float, 36, 40);
    EndOfStep(SUMMARY_FORMAT, 13, Float, 40, 44);
    EndOfStep(SUMMARY_FORMAT, 14, Float, 44, 48);
    EndOfStep(SUMMARY_FORMAT, 15, UInt, 48, 52);
    EndOfStep(SUMMARY_FORMAT, 16, UInt, 52, 56);
    EndOfStep(SUMMARY_FORMAT, 17, UInt, 56, 60);
    EndOfStep(SUMMARY_FORMAT, 18, UInt, 60, 64);
  }

  lemma SummaryDataItems8(data: seq<u8>)
    requires |data| == 64 && |data| == CalcSize(SUMMARY_FORMAT)
    ensures var u := UnpackExact(SUMMARY_FORMAT, data);
      Byte(u[0]) == data[0]
      && Byte(u[1]) == data[1]
      && Byte(u[2]) == data[2]
      && Byte(u[3]) == data[3]
      && Real(u[4]) == F32At(data, 4)
      && Real(u[5]) == F32At(data, 8)
      && Real(u[6]) == F32At(data, 12)
      && Real(u[7]) == F32At(data, 16)
  {
    SummaryDataLayout();
    SummaryDataCodes();
    UnpackAt(SUMMARY_FORMAT, data, 0);
    ByteItem(data, 0);
    UnpackAt(SUMMARY_FORMAT, data, 1);
    ByteItem(data, 1);
    UnpackAt(SUMMARY_FORMAT, data, 2);
    ByteItem(data, 2);
    UnpackAt(SUMMARY_FORMAT, data, 3);
    ByteItem(data, 3);
    UnpackAt(SUMMARY_FORMAT, data, 4);
    RealItem(data, 4);
    UnpackAt(SUMMARY_FORMAT, data, 5);
    RealItem(data, 8);
    UnpackAt(SUMMARY_FORMAT, data, 6);
    RealItem(data, 12);
    UnpackAt(SUMMARY_FORMAT, data, 7);
    RealItem(data, 16);
  }

  lemma SummaryDataItems16(data: seq<u8>)
    requires |data| == 64 && |data| == CalcSize(SUMMARY_FORMAT)
    ensures var u := UnpackExact(SUMMARY_FORMAT, data);
      Real(u[8]) == F32At(data, 20)
      && Real(u[9]) == F32At(data, 24)
      && Real(u[10]) == F32At(data, 28)
      && Real(u[11]) == F32At(data, 32)
      && Real(u[12]) == F32At(data, 36)
      && Real(u[13]) == F32At(data, 40)
      && Real(u[14]) == F32At(data, 44)
      && Word(u[15]) == U32At(data, 48)
  {
    SummaryDataLayout();
    SummaryDataCodes();
    UnpackAt(SUMMARY_FORMAT, data, 8);
    RealItem(data, 20);
    UnpackAt(SUMMARY_FORMAT, data, 9);
    RealItem(data, 24);
    UnpackAt(SUMMARY_FORMAT, data, 10);
    RealItem(data, 28);
    UnpackAt(SUMMARY_FORMAT, data, 11);
    RealItem(data, 32);
    UnpackAt(SUMMARY_FORMAT, data, 12);
    RealItem(data, 36);
    UnpackAt(SUMMARY_FORMAT, data, 13);
    RealItem(data, 40);
    UnpackAt(SUMMARY_FORMAT, data, 14);
    RealItem(data, 44);
    UnpackAt(SUMMARY_FORMAT, data, 15);
    WordItem(data, 48);
  }

  lemma SummaryDataItems19(data: seq<u8>)
    requires |data| == 64 && |data| == CalcSize(SUMMARY_FORMAT)
    ensures var u := UnpackExact(SUMMARY_FORMAT, data);
      Word(u[16]) == U32At(data, 52)
      && Word(u[17]) == U32At(data, 56)
      && Word(u[18]) == U32At(data, 60)
  {
    SummaryDataLayout();
    SummaryDataCodes();
    UnpackAt(SUMMARY_FORMAT, data, 16);
    WordItem(data, 52);
    UnpackAt(SUMMARY_FORMAT, data, 17);
    WordItem(data, 56);
    UnpackAt(SUMMARY_FORMAT, data, 18);
    WordItem(data, 60);
  }

  /** Each field of a decoded SummaryData read straight from its offset in the record. */
  lemma SummaryDataFields(data: seq<u8>)
    requires |data| == 64
    ensures DecodeSummaryData(data) == Ok(SummaryData(
        [data[0], data[1], data[2], data[3]],
        F32At(data, 4), F32At(data, 8), F32At(data, 12), F32At(data, 16), F32At(data, 20), F32At(data, 24), F32At(data, 28), F32At(data, 32), F32At(data, 36), F32At(data, 40), F32At(data, 44),
        U32At(data, 48), U32At(data, 52), U32At(data, 56), U32At(data, 60)))
  {
    SummaryDataLayout();
    SummaryDataItems8(data);
    SummaryDataItems16(data);
    SummaryDataItems19(data);
  }

  lemma SummaryDataLayout()
    ensures Offset(SUMMARY_FORMAT, 0) == 0
      && Offset(SUMMARY_FORMAT, 1) == 1
      && Offset(SUMMARY_FORMAT, 2) == 2
      && Offset(SUMMARY_FORMAT, 3) == 3
      && Offset(SUMMARY_FORMAT, 4) == 4
      && Offset(SUMMARY_FORMAT, 5) == 8
      && Offset(SUMMARY_FORMAT, 6) == 12
      && Offset(SUMMARY_FORMAT, 7) == 16
      && Offset(SUMMARY_FORMAT, 8) == 20
      && Offset(SUMMARY_FORMAT, 9) == 24
      && Offset(SUMMARY_FORMAT, 10) == 28
      && Offset(SUMMARY_FORMAT, 11) == 32
      && Offset(SUMMARY_FORMAT, 12) == 36
      && Offset(SUMMARY_FORMAT, 13) == 40
      && Offset(SUMMARY_FORMAT, 14) == 44
      && Offset(SUMMARY_FORMAT, 15) == 48
      && Offset(SUMMARY_FORMAT, 16) == 52
      && Offset(SUMMARY_FORMAT, 17) == 56
      && Offset(SUMMARY_FORMAT, 18) == 60
    ensures CalcSize(SUMMARY_FORMAT) == SUMMARY_SIZE
  {
    SummaryDataCodes();
    SummaryDataEnds();
  }

  // ---------------------------------------------------------------- MeanData

  /** "4f" */
  const MEAN_FORMAT: seq<Code> := Repeat(4, Float)
  /** `struct.calcsize` of the format, as `MeanDataSize` proves. */
  const MEAN_SIZE: nat := 16

  datatype MeanData = MeanData(averageFn: Float32, averageFt: Float32, covFn: Float32, cof: Float32)

  /** The MeanData fields, assigned from the unpacked items by position. */
  function MeanDataOf(u: seq<Value>): MeanData
    requires |u| == 4
  {
    MeanData(Real(u[0]), Real(u[1]), Real(u[2]), Real(u[3]))
  }

  function DecodeMeanData(data: seq<u8>): (r: Result<MeanData>)
    ensures r.Ok? <==> |data| == MEAN_SIZE
    ensures r.Err? ==> r.error == LengthMismatch(MeanDataRecord, MEAN_SIZE, |data|)
  {
    if |data| != MEAN_SIZE then Err(LengthMismatch(MeanDataRecord, MEAN_SIZE, |data|))
    else
      MeanDataSize();
      Ok(MeanDataOf(UnpackExact(MEAN_FORMAT, data)))
  }


  /** The items of `MEAN_FORMAT`, one by one. */
  lemma MeanDataCodes()
    ensures |MEAN_FORMAT| == 4
    ensures MEAN_FORMAT[0] == Float
      && MEAN_FORMAT[1] == Float
      && MEAN_FORMAT[2] == Float
      && MEAN_FORMAT[3] == Float
  {
  }

  /** The format's `struct.calcsize`. */
  lemma MeanDataSize()
    ensures CalcSize(MEAN_FORMAT) == MEAN_SIZE
  {
    MeanDataCodes();
    MeanDataEnds();
  }

  /** The end of every prefix of `MEAN_FORMAT`, step by step. */
  lemma MeanDataEnds()
    ensures EndOf(MEAN_FORMAT, 1) == 4
      && EndOf(MEAN_FORMAT, 2) == 8
      && EndOf(MEAN_FORMAT, 3) == 12
      && EndOf(MEAN_FORMAT, 4) == 16
  {
    MeanDataCodes();
    EndOfStep(MEAN_FORMAT, 0, Float, 0, 4);
    EndOfStep(MEAN_FORMAT, 1, Float, 4, 8);
    EndOfStep(MEAN_FORMAT, 2, Float, 8, 12);
    EndOfStep(MEAN_FORMAT, 3, Float, 12, 16);
  }

  /** Each field of a decoded MeanData read straight from its offset in the record. */
  lemma MeanDataFields(data: seq<u8>)
    requires |data| == 16
    ensures DecodeMeanData(data) == Ok(MeanData(F32At(data, 0), F32At(data, 4), F32At(data, 8), F32At(data, 12)))
  {
    MeanDataLayout();
    MeanDataCodes();
    UnpackAt(MEAN_FORMAT, data, 0);
    RealItem(data, 0);
    UnpackAt(MEAN_FORMAT, data, 1);
    RealItem(data, 4);
    UnpackAt(MEAN_FORMAT, data, 2);
    RealItem(data, 8);
    UnpackAt(MEAN_FORMAT, data, 3);
    RealItem(data, 12);
  }

  lemma MeanDataLayout()
    ensures Offset(MEAN_FORMAT, 0) == 0
      && Offset(MEAN_FORMAT, 1) == 4
      && Offset(MEAN_FORMAT, 2) == 8
      && Offset(MEAN_FORMAT, 3) == 12
    ensures CalcSize(MEAN_FORMAT) == MEAN_SIZE
  {
    MeanDataCodes();
    MeanDataEnds();
  }

  // ---------------------------------------------------------------- RunDataPoint

  /** "2B 2H I 3f" */
  const RUN_DATA_POINT_FORMAT: seq<Code> := [UChar, UChar, UShort, UShort, UInt, Float, Float, Float]
  /** `struct.calcsize` of the format, as `RunDataPointSize` proves. */
  const RUN_DATA_POINT_SIZE: nat := 24

  /** One time-series sample; `fn` and `ft` are the normal and tangential forces. */
  datatype RunDataPoint = RunDataPoint(
    progress: u8,
    setAngle: u8,
    setSpeed: u16,
    setForce: u16,
    millisFromStart: u32,
    angle: Float32,
    fn: Float32,
    ft: Float32)

  /** The RunDataPoint fields, assigned from the unpacked items by position. */
  function RunDataPointOf(u: seq<Value>): RunDataPoint
    requires |u| == 8
  {
    RunDataPoint(Byte(u[0]), Byte(u[1]), Short(u[2]), Short(u[3]), Word(u[4]), Real(u[5]), Real(u[6]), Real(u[7]))
  }

  function DecodeRunDataPoint(data: seq<u8>): (r: Result<RunDataPoint>)
    ensures r.Ok? <==> |data| == RUN_DATA_POINT_SIZE
    ensures r.Err? ==> r.error == LengthMismatch(RunDataPointRecord, RUN_DATA_POINT_SIZE, |data|)
  {
    if |data| != RUN_DATA_POINT_SIZE then Err(LengthMismatch(RunDataPointRecord, RUN_DATA_POINT_SIZE, |data|))
    else
      RunDataPointSize();
      Ok(RunDataPointOf(UnpackExact(RUN_DATA_POINT_FORMAT, data)))
  }


  /** The items of `RUN_DATA_POINT_FORMAT`, one by one. */
  lemma RunDataPointCodes()
    ensures |RUN_DATA_POINT_FORMAT| == 8
    ensures RUN_DATA_POINT_FORMAT[0] == UChar
      && RUN_DATA_POINT_FORMAT[1] == UChar
      && RUN_DATA_POINT_FORMAT[2] == UShort
      && RUN_DATA_POINT_FORMAT[3] == UShort
      && RUN_DATA_POINT_FORMAT[4] == UInt
      && RUN_DATA_POINT_FORMAT[5] == Float
      && RUN_DATA_POINT_FORMAT[6] == Float
      && RUN_DATA_POINT_FORMAT[7] == Float
  {
  }

  /** The format's `struct.calcsize`. */
  lemma RunDataPointSize()
    ensures CalcSize(RUN_DATA_POINT_FORMAT) == RUN_DATA_POINT_SIZE
  {
    RunDataPointCodes();
    RunDataPointEnds();
  }

  /** The end of every prefix of `RUN_DATA_POINT_FORMAT`, step by step. */
  lemma RunDataPointEnds()
    ensures EndOf(RUN_DATA_POINT_FORMAT, 1) == 1
      && EndOf(RUN_DATA_POINT_FORMAT, 2) == 2
      && EndOf(RUN_DATA_POINT_FORMAT, 3) == 4
      && EndOf(RUN_DATA_POINT_FORMAT, 4) == 6
      && EndOf(RUN_DATA_POINT_FORMAT, 5) == 12
      && EndOf(RUN_DATA_POINT_FORMAT, 6) == 16
      && EndOf(RUN_DATA_POINT_FORMAT, 7) == 20
      && EndOf(RUN_DATA_POINT_FORMAT, 8) == 24
  {
    RunDataPointCodes();
    EndOfStep(RUN_DATA_POINT_FORMAT, 0, UChar, 0, 1);
    EndOfStep(RUN_DATA_POINT_FORMAT, 1, UChar, 1, 2);
    EndOfStep(RUN_DATA_POINT_FORMAT, 2, UShort, 2, 4);
    EndOfStep(RUN_DATA_POINT_FORMAT, 3, UShort, 4, 6);
    EndOfStep(RUN_DATA_POINT_FORMAT, 4, UInt, 6, 12);
    EndOfStep(RUN_DATA_POINT_FORMAT, 5, Float, 12, 16);
    EndOfStep(RUN_DATA_POINT_FORMAT, 6, Float, 16, 20);
    EndOfStep(RUN_DATA_POINT_FORMAT, 7, Float, 20, 24);
  }

  /** Each field of a decoded RunDataPoint read straight from its offset in the record. */
  lemma RunDataPointFields(data: seq<u8>)
    requires |data| == 24
    ensures DecodeRunDataPoint(data) == Ok(RunDataPoint(data[0], data[1], U16At(data, 2), U16At(data, 4), U32At(data, 8), F32At(data, 12), F32At(data, 16), F32At(data, 20)))
  {
    RunDataPointLayout();
    RunDataPointCodes();
    UnpackAt(RUN_DATA_POINT_FORMAT, data, 0);
    ByteItem(data, 0);
    UnpackAt(RUN_DATA_POINT_FORMAT, data, 1);
    ByteItem(data, 1);
    UnpackAt(RUN_DATA_POINT_FORMAT, data, 2);
    ShortItem(data, 2);
    UnpackAt(RUN_DATA_POINT_FORMAT, data, 3);
    ShortItem(data, 4);
    UnpackAt(RUN_DATA_POINT_FORMAT, data, 4);
    WordItem(data, 8);
    UnpackAt(RUN_DATA_POINT_FORMAT, data, 5);
    RealItem(data, 12);
    UnpackAt(RUN_DATA_POINT_FORMAT, data, 6);
    RealItem(data, 16);
    UnpackAt(RUN_DATA_POINT_FORMAT, data, 7);
    RealItem(data, 20);
  }

  /** The `I` is aligned to offset 8, so the record is 24 bytes and bytes 6..7 are padding. */
  lemma RunDataPointLayout()
    ensures Offset(RUN_DATA_POINT_FORMAT, 0) == 0
      && Offset(RUN_DATA_POINT_FORMAT, 1) == 1
      && Offset(RUN_DATA_POINT_FORMAT, 2) == 2
      && Offset(RUN_DATA_POINT_FORMAT, 3) == 4
      && Offset(RUN_DATA_POINT_FORMAT, 4) == 8
      && Offset(RUN_DATA_POINT_FORMAT, 5) == 12
      && Offset(RUN_DATA_POINT_FORMAT, 6) == 16
      && Offset(RUN_DATA_POINT_FORMAT, 7) == 20
    ensures CalcSize(RUN_DATA_POINT_FORMAT) == RUN_DATA_POINT_SIZE
  {
    RunDataPointCodes();
    RunDataPointEnds();
  }

  /** Bytes 6 and 7 of a RunDataPoint are alignment padding: they do not affect the decoded point. */
  lemma RunDataPointPaddingIgnored(a: seq<u8>, b: seq<u8>)
    requires |a| == |b| == 24
    requires forall i :: 0 <= i < 24 && i != 6 && i != 7 ==> a[i] == b[i]
    ensures DecodeRunDataPoint(a) == DecodeRunDataPoint(b)
  {
    RunDataPointFields(a);
    RunDataPointFields(b);
    assert a[0] == b[0] && a[1] == b[1];
    SameU16(a, b, 2);
    SameU16(a, b, 4);
    SameU32(a, b, 8);
    SameU32(a, b, 12);
    SameU32(a, b, 16);
    SameU32(a, b, 20);
  }

  // ---------------------------------------------------------------- FullDataHeaders

  /** "4f 2B H I" */
  const FULL_DATA_HEADERS_FORMAT: seq<Code> := Repeat(4, Float) + [UChar, UChar, UShort, UInt]
  /** `struct.calcsize` of the format, as `FullDataHeadersSize` proves. */
  const FULL_DATA_HEADERS_SIZE: nat := 24

  /** The header of one full-run section; `length` is the number of points that follow it. */
  datatype FullDataHeaders = FullDataHeaders(
    railTemperature: Float32,
    humidity: Float32,
    airTemperature: Float32,
    airPressure: Float32,
    rep: u8,
    run: u8,
    r1: u16,
    length: u32)

  /** The FullDataHeaders fields, assigned from the unpacked items by position. */
  function FullDataHeadersOf(u: seq<Value>): FullDataHeaders
    requires |u| == 8
  {
    FullDataHeaders(Real(u[0]), Real(u[1]), Real(u[2]), Real(u[3]), Byte(u[4]), Byte(u[5]), Short(u[6]), Word(u[7]))
  }

  function DecodeFullDataHeaders(data: seq<u8>): (r: Result<FullDataHeaders>)
    ensures r.Ok? <==> |data| == FULL_DATA_HEADERS_SIZE
    ensures r.Err? ==> r.error == LengthMismatch(FullDataHeadersRecord, FULL_DATA_HEADERS_SIZE, |data|)
  {
    if |data| != FULL_DATA_HEADERS_SIZE then Err(LengthMismatch(FullDataHeadersRecord, FULL_DATA_HEADERS_SIZE, |data|))
    else
      FullDataHeadersSize();
      Ok(FullDataHeadersOf(UnpackExact(FULL_DATA_HEADERS_FORMAT, data)))
  }


  /** The items of `FULL_DATA_HEADERS_FORMAT`, one by one. */
  lemma FullDataHeadersCodes()
    ensures |FULL_DATA_HEADERS_FORMAT| == 8
    ensures FULL_DATA_HEADERS_FORMAT[0] == Float
      && FULL_DATA_HEADERS_FORMAT[1] == Float
      && FULL_DATA_HEADERS_FORMAT[2] == Float
      && FULL_DATA_HEADERS_FORMAT[3] == Float
      && FULL_DATA_HEADERS_FORMAT[4] == UChar
      && FULL_DATA_HEADERS_FORMAT[5] == UChar
      && FULL_DATA_HEADERS_FORMAT[6] == UShort
      && FULL_DATA_HEADERS_FORMAT[7] == UInt
  {
  }

  /** The format's `struct.calcsize`. */
  lemma FullDataHeadersSize()
    ensures CalcSize(FULL_DATA_HEADERS_FORMAT) == FULL_DATA_HEADERS_SIZE
  {
    FullDataHeadersCodes();
    FullDataHeadersEnds();
  }

  /** The end of every prefix of `FULL_DATA_HEADERS_FORMAT`, step by step. */
  lemma FullDataHeadersEnds()
    ensures EndOf(FULL_DATA_HEADERS_FORMAT, 1) == 4
      && EndOf(FULL_DATA_HEADERS_FORMAT, 2) == 8
      && EndOf(FULL_DATA_HEADERS_FORMAT, 3) == 12
      && EndOf(FULL_DATA_HEADERS_FORMAT, 4) == 16
      && EndOf(FULL_DATA_HEADERS_FORMAT, 5) == 17
      && EndOf(FULL_DATA_HEADERS_FORMAT, 6) == 18
      && EndOf(FULL_DATA_HEADERS_FORMAT, 7) == 20
      && EndOf(FULL_DATA_HEADERS_FORMAT, 8) == 24
  {
    FullDataHeadersCodes();
    EndOfStep(FULL_DATA_HEADERS_FORMAT, 0, Float, 0, 4);
    EndOfStep(FULL_DATA_HEADERS_FORMAT, 1, Float, 4, 8);
    EndOfStep(FULL_DATA_HEADERS_FORMAT, 2, Float, 8, 12);
    EndOfStep(FULL_DATA_HEADERS_FORMAT, 3, Float, 12, 16);
    EndOfStep(FULL_DATA_HEADERS_FORMAT, 4, UChar, 16, 17);
    EndOfStep(FULL_DATA_HEADERS_FORMAT, 5, UChar, 17, 18);
    EndOfStep(FULL_DATA_HEADERS_FORMAT, 6, UShort, 18, 20);
    EndOfStep(FULL_DATA_HEADERS_FORMAT, 7, UInt, 20, 24);
  }

  /** Each field of a decoded FullDataHeaders read straight from its offset in the record. */
  lemma FullDataHeadersFields(data: seq<u8>)
    requires |data| == 24
    ensures DecodeFullDataHeaders(data) == Ok(FullDataHeaders(F32At(data, 0), F32At(data, 4), F32At(data, 8), F32At(data, 12), data[16], data[17], U16At(data, 18), U32At(data, 20)))
  {
    FullDataHeadersLayout();
    FullDataHeadersCodes();
    UnpackAt(FULL_DATA_HEADERS_FORMAT, data, 0);
    RealItem(data, 0);
    UnpackAt(FULL_DATA_HEADERS_FORMAT, data, 1);
    RealItem(data, 4);
    UnpackAt(FULL_DATA_HEADERS_FORMAT, data, 2);
    RealItem(data, 8);
    UnpackAt(FULL_DATA_HEADERS_FORMAT, data, 3);
    RealItem(data, 12);
    UnpackAt(FULL_DATA_HEADERS_FORMAT, data, 4);
    ByteItem(data, 16);
    UnpackAt(FULL_DATA_HEADERS_FORMAT, data, 5);
    ByteItem(data, 17);
    UnpackAt(FULL_DATA_HEADERS_FORMAT, data, 6);
    ShortItem(data, 18);
    UnpackAt(FULL_DATA_HEADERS_FORMAT, data, 7);
    WordItem(data, 20);
  }

  lemma FullDataHeadersLayout()
    ensures Offset(FULL_DATA_HEADERS_FORMAT, 0) == 0
      && Offset(FULL_DATA_HEADERS_FORMAT, 1) == 4
      && Offset(FULL_DATA_HEADERS_FORMAT, 2) == 8
      && Offset(FULL_DATA_HEADERS_FORMAT, 3) == 12
      && Offset(FULL_DATA_HEADERS_FORMAT, 4) == 16
      && Offset(FULL_DATA_HEADERS_FORMAT, 5) == 17
      && Offset(FULL_DATA_HEADERS_FORMAT, 6) == 18
      && Offset(FULL_DATA_HEADERS_FORMAT, 7) == 20
    ensures CalcSize(FULL_DATA_HEADERS_FORMAT) == FULL_DATA_HEADERS_SIZE
  {
    FullDataHeadersCodes();
    FullDataHeadersEnds();
  }
}
