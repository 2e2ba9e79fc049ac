/** The 24-bit Windows bitmap header of Periodic2DSystem/bmp.cpp: the padded row size, the
    header the constructor fills in, and the packed 54-byte layout of the header struct
    (a 14-byte file header followed by a 40-byte information header, little-endian). */
module Bmp {

  type Byte = x: int | 0 <= x < 256

  predicate IsInt32(v: int) { -0x8000_0000 <= v < 0x8000_0000 }
  predicate IsUInt32(v: int) { 0 <= v < 0x1_0000_0000 }
  predicate IsUInt16(v: int) { 0 <= v < 0x1_0000 }

  /** C's `%` on int: the remainder takes the sign of the dividend. */
  function CRem(a: int, b: int): (r: int)
    requires b > 0
    ensures a >= 0 ==> 0 <= r < b
    ensures a < 0 ==> -b < r <= 0
  {
    if a >= 0 then a % b else -((-a) % b)
  }

  /** The conversion of an int to unsigned int: reduction modulo 2^32. */
  function ToUInt32(v: int): (u: int)
    ensures IsUInt32(u)
    ensures IsUInt32(v) ==> u == v
    ensures (u - v) % 0x1_0000_0000 == 0
  {
    v % 0x1_0000_0000
  }

  /** The conversion of an unsigned int back to int, two's complement. */
  function ToInt32(u: int): (v: int)
    requires IsUInt32(u)
    ensures IsInt32(v)
    ensures ToUInt32(v) == u
  {
    if u < 0x8000_0000 then u else u - 0x1_0000_0000
  }

  lemma Int32RoundTrip(v: int)
    requires IsInt32(v)
    ensures ToInt32(ToUInt32(v)) == v
  {
  }

  /** The padded row size before its conversion to the unsigned return type. */
  function PaddedRow(width: int): int {
    var bytes := 3 * width;
    if CRem(bytes, 4) == 0 then bytes else bytes + (4 - CRem(bytes, 4))
  }

  /** get_bmp_row_byte_size (Periodic2DSystem/bmp.cpp:5-8). The int arithmetic must not
      overflow, which bounds the width. */
  function RowByteSize(width: int): (r: int)
    requires IsInt32(3 * width) && IsInt32(3 * width + 3)
    ensures IsUInt32(r)
    ensures width >= 0 ==> r % 4 == 0 && 3 * width <= r < 3 * width + 4
    ensures width >= 0 ==> (r == 3 * width <==> (3 * width) % 4 == 0)
  {
    ToUInt32(PaddedRow(width))
  }

  /** Rounding up to a multiple of 4, an independent reference for the row size. */
  function RoundUpTo4(n: nat): nat {
    (n + 3) / 4 * 4
  }

  lemma RowByteSizeRoundsUp(width: nat)
    requires IsInt32(3 * width + 3)
    ensures RowByteSize(width) == RoundUpTo4(3 * width)
  {
    var r := RowByteSize(width);
    DivMod4(r);
    DivMod4(3 * width + 3);
  }

  lemma RowByteSizeMonotone(w1: nat, w2: nat)
    requires w1 <= w2 && IsInt32(3 * w2 + 3)
    ensures RowByteSize(w1) <= RowByteSize(w2)
  {
    RowByteSizeRoundsUp(w1);
    RowByteSizeRoundsUp(w2);
    var a, b := 3 * w1 + 3, 3 * w2 + 3;
    DivMod4(a);
    DivMod4(b);
  }

  lemma DivMod4(x: int)
    ensures x == 4 * (x / 4) + x % 4 && 0 <= x % 4 < 4
  {
  }

  /** The packed header struct (Periodic2DSystem/bmp.hpp:14-28). Signed fields hold int32
      values, unsigned ones uint32 or uint16 values. */
  datatype BmpHeader = BmpHeader(
    bm: (Byte, Byte),
    totalFileSize: int,
    padding: seq<Byte>,
    dataOffset: int,
    headerSize: int,
    width: int,
    height: int,
    planeCount: int,
    bitsPerPixel: int,
    compressionMethod: int,
    imageSize: int,
    horizontalResolution: int,
    verticalResolution: int,
    colorPalleteCount: int,
    importantColorsCount: int)

  ghost predicate WellTyped(h: BmpHeader) {
    && IsInt32(h.totalFileSize) && |h.padding| == 4 && IsInt32(h.dataOffset)
    && IsUInt32(h.headerSize) && IsInt32(h.width) && IsInt32(h.height)
    && IsUInt16(h.planeCount) && IsUInt16(h.bitsPerPixel)
    && IsUInt32(h.compressionMethod) && IsUInt32(h.imageSize)
    && IsInt32(h.horizontalResolution) && IsInt32(h.verticalResolution)
    && IsUInt32(h.colorPalleteCount) && IsUInt32(h.importantColorsCount)
  }

  /** The row size as the int the constructor stores it in. */
  function SignedRowSize(width: int): int
    requires IsInt32(3 * width) && IsInt32(3 * width + 3)
  {
    ToInt32(RowByteSize(width))
  }

  /** The BMPHeader constructor (Periodic2DSystem/bmp.cpp:10-27). The products of the row
      size and the height are int arithmetic and must not overflow. */
  function NewHeader(width: int, height: int): (h: BmpHeader)
    requires IsInt32(3 * width) && IsInt32(3 * width + 3) && IsInt32(height)
    requires IsInt32(SignedRowSize(width) * height) && IsInt32(54 + SignedRowSize(width) * height)
    ensures WellTyped(h)
    ensures h.bm == ('B' as int, 'M' as int) && h.padding == [0, 0, 0, 0]
    ensures h.dataOffset == 54 && h.headerSize == 40 && h.planeCount == 1 && h.bitsPerPixel == 24
    ensures h.compressionMethod == 0 && h.horizontalResolution == 100 && h.verticalResolution == 100
    ensures h.colorPalleteCount == 16777216 && h.importantColorsCount == 0
    ensures h.width == width && h.height == height
    ensures width >= 0 && height >= 0 ==> h.imageSize == RowByteSize(width) * height
    ensures width >= 0 && height >= 0 ==> h.totalFileSize == h.dataOffset + h.imageSize
  {
    var rowSize := SignedRowSize(width);
    BmpHeader(
      ('B' as int, 'M' as int), 54 + rowSize * height, [0, 0, 0, 0], 54, 40, width, height,
      1, 24, 0, ToUInt32(rowSize * height), 100, 100, 16777216, 0)
  }

  /** An unsigned value as little-endian bytes. */
  function Le32(u: int): (s: seq<Byte>)
    requires IsUInt32(u)
    ensures |s| == 4
  {
    DivMod256(u);
    DivMod256(u / 256);
    DivMod256(u / 256 / 256);
    [u % 256, u / 256 % 256, u / 256 / 256 % 256, u / 256 / 256 / 256]
  }

  function Le16(u: int): (s: seq<Byte>)
    requires IsUInt16(u)
    ensures |s| == 2
  {
    DivMod256(u);
    [u % 256, u / 256]
  }

  function Read32(s: seq<Byte>): (u: int)
    requires |s| == 4
    ensures IsUInt32(u)
  {
    s[0] as int + 256 * (s[1] as int + 256 * (s[2] as int + 256 * s[3] as int))
  }

  function Read16(s: seq<Byte>): (u: int)
    requires |s| == 2
    ensures IsUInt16(u)
  {
    s[0] as int + 256 * s[1] as int
  }

  lemma DivMod256(x: int)
    ensures x == 256 * (x / 256) + x % 256 && 0 <= x % 256 < 256
  {
  }

  /** The quotient and remainder by 256 are the only ones. */
  lemma DivMod256Unique(x: int, q: int, r: int)
    requires x == 256 * q + r && 0 <= r < 256
    ensures x / 256 == q && x % 256 == r
  {
    DivMod256(x);
  }

  lemma Le32RoundTrip(u: int)
    requires IsUInt32(u)
    ensures Read32(Le32(u)) == u
  {
    DivMod256(u);
    DivMod256(u / 256);
    DivMod256(u / 256 / 256);
  }

  lemma Read32RoundTrip(s: seq<Byte>)
    requires |s| == 4
    ensures Le32(Read32(s)) == s
  {
    var u := Read32(s);
    var q1, q2 := s[1] as int + 256 * (s[2] as int + 256 * s[3] as int), s[2] as int + 256 * s[3] as int;
    DivMod256Unique(u, q1, s[0]);
    DivMod256Unique(q1, q2, s[1]);
    DivMod256Unique(q2, s[3], s[2]);
  }

  lemma Le16RoundTrip(u: int)
    requires IsUInt16(u)
    ensures Read16(Le16(u)) == u
  {
    DivMod256(u);
  }

  lemma Read16RoundTrip(s: seq<Byte>)
    requires |s| == 2
    ensures Le16(Read16(s)) == s
  {
    DivMod256Unique(Read16(s), s[1], s[0]);
  }

  /** The 14-byte file header: signature, file size, reserved bytes, pixel data offset
      (Periodic2DSystem/bmp.hpp:15-18). */
  function FileBlock(h: BmpHeader): (s: seq<Byte>)
    requires WellTyped(h)
    ensures |s| == 14
  {
    [h.bm.0, h.bm.1] + (Le32(ToUInt32(h.totalFileSize)) + (h.padding + Le32(ToUInt32(h.dataOffset))))
  }

  /** The 40-byte information header, from header_size through important_colors_count
      (Periodic2DSystem/bmp.hpp:19-28). */
  function InfoBlock(h: BmpHeader): (s: seq<Byte>)
    requires WellTyped(h)
    ensures |s| == 40
  {
    Le32(h.headerSize) + (Le32(ToUInt32(h.width)) + (Le32(ToUInt32(h.height))
    + (Le16(h.planeCount) + (Le16(h.bitsPerPixel)
    + (Le32(h.compressionMethod) + (Le32(h.imageSize)
    + (Le32(ToUInt32(h.horizontalResolution)) + (Le32(ToUInt32(h.verticalResolution))
    + (Le32(h.colorPalleteCount) + Le32(h.importantColorsCount))))))))))
  }

  /** The bytes of the packed struct (Periodic2DSystem/bmp.hpp:14-28). */
  function Serialize(h: BmpHeader): (s: seq<Byte>)
    requires WellTyped(h)
    ensures |s| == 54
    ensures s[..2] == [h.bm.0, h.bm.1]
  {
    FileBlock(h) + InfoBlock(h)
  }

  /** Reading the struct back from its 54 bytes, field after field. */
  function Parse(s: seq<Byte>): (h: BmpHeader)
    requires |s| == 54
    ensures WellTyped(h)
  {
    var f, i := s[..14], s[14..];
    var f1 := f[2..];
    var f2 := f1[4..];
    var i1 := i[4..];
    var i2 := i1[4..];
    var i3 := i2[4..];
    var i4 := i3[2..];
    var i5 := i4[2..];
    var i6 := i5[4..];
    var i7 := i6[4..];
    var i8 := i7[4..];
    var i9 := i8[4..];
    BmpHeader(
      (f[0], f[1]), ToInt32(Read32(f1[..4])), f2[..4], ToInt32(Read32(f2[4..])),
      Read32(i[..4]), ToInt32(Read32(i1[..4])), ToInt32(Read32(i2[..4])),
      Read16(i3[..2]), Read16(i4[..2]),
      Read32(i5[..4]), Read32(i6[..4]),
      ToInt32(Read32(i7[..4])), ToInt32(Read32(i8[..4])),
      Read32(i9[..4]), Read32(i9[4..]))
  }

  lemma ParseFileBlock(h: BmpHeader, s: seq<Byte>)
    requires WellTyped(h) && |s| == 54 && s[..14] == FileBlock(h)
    ensures Parse(s).bm == h.bm && Parse(s).totalFileSize == h.totalFileSize
    ensures Parse(s).padding == h.padding && Parse(s).dataOffset == h.dataOffset
  {
    var f := s[..14];
    assert f[2..][..4] == Le32(ToUInt32(h.totalFileSize));
    assert f[2..][4..][..4] == h.padding;
    assert f[2..][4..][4..] == Le32(ToUInt32(h.dataOffset));
    Le32RoundTrip(ToUInt32(h.totalFileSize));
    Le32RoundTrip(ToUInt32(h.dataOffset));
    Int32RoundTrip(h.totalFileSize);
    Int32RoundTrip(h.dataOffset);
  }

  lemma ParseInfoBlock(h: BmpHeader, s: seq<Byte>)
    requires WellTyped(h) && |s| == 54 && s[14..] == InfoBlock(h)
    ensures var p := Parse(s);
            && p.headerSize == h.headerSize && p.width == h.width && p.height == h.height
            && p.planeCount == h.planeCount && p.bitsPerPixel == h.bitsPerPixel
            && p.compressionMethod == h.compressionMethod && p.imageSize == h.imageSize
            && p.horizontalResolution == h.horizontalResolution && p.verticalResolution == h.verticalResolution
            && p.colorPalleteCount == h.colorPalleteCount && p.importantColorsCount == h.importantColorsCount
  {
    var i := s[14..];
    assert i[..4] == Le32(h.headerSize);
    var i1 := i[4..];
    assert i1[..4] == Le32(ToUInt32(h.width));
    var i2 := i1[4..];
    assert i2[..4] == Le32(ToUInt32(h.height));
    var i3 := i2[4..];
    assert i3[..2] == Le16(h.planeCount);
    var i4 := i3[2..];
    assert i4[..2] == Le16(h.bitsPerPixel);
    Le32RoundTrip(h.headerSize);
    Le32RoundTrip(ToUInt32(h.width));
    Le32RoundTrip(ToUInt32(h.height));
    Int32RoundTrip(h.width);
    Int32RoundTrip(h.height);
    Le16RoundTrip(h.planeCount);
    Le16RoundTrip(h.bitsPerPixel);
    ParseInfoTail(h, s, i4[2..]);
  }

  lemma ParseInfoTail(h: BmpHeader, s: seq<Byte>, i5: seq<Byte>)
    requires WellTyped(h) && |s| == 54 && i5 == s[30..]
    requires i5 == Le32(h.compressionMethod) + (Le32(h.imageSize)
                   + (Le32(ToUInt32(h.horizontalResolution)) + (Le32(ToUInt32(h.verticalResolution))
                   + (Le32(h.colorPalleteCount) + Le32(h.importantColorsCount)))))
    ensures var p := Parse(s);
            && p.compressionMethod == h.compressionMethod && p.imageSize == h.imageSize
            && p.horizontalResolution == h.horizontalResolution && p.verticalResolution == h.verticalResolution
            && p.colorPalleteCount == h.colorPalleteCount && p.importantColorsCount == h.importantColorsCount
  {
    assert s[14..][4..][4..][4..][2..][2..] == i5;
    assert i5[..4] == Le32(h.compressionMethod);
    var i6 := i5[4..];
    assert i6[..4] == Le32(h.imageSize);
    var i7 := i6[4..];
    assert i7[..4] == Le32(ToUInt32(h.horizontalResolution));
    var i8 := i7[4..];
    assert i8[..4] == Le32(ToUInt32(h.verticalResolution));
    var i9 := i8[4..];
    assert i9[..4] == Le32(h.colorPalleteCount);
    assert i9[4..] == Le32(h.importantColorsCount);
    Le32RoundTrip(h.compressionMethod);
    Le32RoundTrip(h.imageSize);
    Le32RoundTrip(ToUInt32(h.horizontalResolution));
    Le32RoundTrip(ToUInt32(h.verticalResolution));
    Int32RoundTrip(h.horizontalResolution);
    Int32RoundTrip(h.verticalResolution);
    Le32RoundTrip(h.colorPalleteCount);
    Le32RoundTrip(h.importantColorsCount);
  }

  /** Reading back the bytes of a header gives the header. */
  lemma ParseSerialize(h: BmpHeader)
    requires WellTyped(h)
    ensures Parse(Serialize(h)) == h
  {
    var s := Serialize(h);
    assert s[..14] == FileBlock(h);
    assert s[14..] == InfoBlock(h);
    ParseFileBlock(h, s);
    ParseInfoBlock(h, s);
  }

  lemma SerializeFileBlock(s: seq<Byte>)
    requires |s| == 54
    ensures FileBlock(Parse(s)) == s[..14]
  {
    var h, f := Parse(s), s[..14];
    var f1 := f[2..];
    var f2 := f1[4..];
    Read32RoundTrip(f1[..4]);
    Read32RoundTrip(f2[4..]);
    assert f2 == f2[..4] + f2[4..];
    assert f1 == f1[..4] + f2;
    assert f == [f[0], f[1]] + f1;
  }

  lemma SerializeInfoBlock(s: seq<Byte>)
    requires |s| == 54
    ensures InfoBlock(Parse(s)) == s[14..]
  {
    var i := s[14..];
    var i1 := i[4..];
    var i2 := i1[4..];
    var i3 := i2[4..];
    var i4 := i3[2..];
    var i5 := i4[2..];
    var i6 := i5[4..];
    var i7 := i6[4..];
    var i8 := i7[4..];
    var i9 := i8[4..];
    Read32RoundTrip(i[..4]);
    Read32RoundTrip(i1[..4]);
    Read32RoundTrip(i2[..4]);
    Read16RoundTrip(i3[..2]);
    Read16RoundTrip(i4[..2]);
    Read32RoundTrip(i5[..4]);
    Read32RoundTrip(i6[..4]);
    Read32RoundTrip(i7[..4]);
    Read32RoundTrip(i8[..4]);
    Read32RoundTrip(i9[..4]);
    Read32RoundTrip(i9[4..]);
    assert i9 == i9[..4] + i9[4..];
    assert i8 == i8[..4] + i9;
    assert i7 == i7[..4] + i8;
    assert i6 == i6[..4] + i7;
    assert i5 == i5[..4] + i6;
    assert i4 == i4[..2] + i5;
    assert i3 == i3[..2] + i4;
    assert i2 == i2[..4] + i3;
    assert i1 == i1[..4] + i2;
    assert i == i[..4] + i1;
  }

  /** Every 54 bytes are the bytes of the header they read as. */
  lemma SerializeParse(s: seq<Byte>)
    requires |s| == 54
    ensures Serialize(Parse(s)) == s
  {
    SerializeFileBlock(s);
    SerializeInfoBlock(s);
    assert s == s[..14] + s[14..];
  }

  /** The header written for a width and height is 54 bytes, the pixel data offset it
      records; its information block is the 40 bytes its header size records; and its
      file block starts with the signature and records the file size. */
  lemma HeaderSizesAgree(width: int, height: int)
    requires IsInt32(3 * width) && IsInt32(3 * width + 3) && IsInt32(height)
    requires IsInt32(SignedRowSize(width) * height) && IsInt32(54 + SignedRowSize(width) * height)
    ensures var h := NewHeader(width, height);
            && |Serialize(h)| == h.dataOffset && |InfoBlock(h)| == h.headerSize
            && Serialize(h)[..2] == ['B' as int, 'M' as int]
            && Read32(Serialize(h)[2..6]) == ToUInt32(h.totalFileSize)
            && Serialize(h)[6..10] == [0, 0, 0, 0]
            && Read32(Serialize(h)[10..14]) == 54
  {
    var h := NewHeader(width, height);
    var s := Serialize(h);
    ParseSerialize(h);
    assert s[..14][2..][..4] == s[2..6];
    assert s[..14][2..][4..][..4] == s[6..10];
    assert s[..14][2..][4..][4..] == s[10..14];
  }
}
