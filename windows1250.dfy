/**
 * The Windows-1250 code page of golang.org/x/text/encoding/charmap, as
 * abo's io.go uses it: a decoder from code-page bytes to UTF-8 and an
 * encoder from UTF-8 back to code-page bytes. The lower half is ASCII in
 * both directions; each byte of the upper half stands for one code point.
 */
module Windows1250 {
  import opened Wrappers

  /** One byte; Go strings are byte strings too. */
  type byte = b: int | 0 <= b < 0x100
  type bytes = seq<byte>

  predicate IsAscii(s: bytes) {
    forall i | 0 <= i < |s| :: s[i] < 0x80
  }

  /** A code point the UTF-8 encoder of at most three bytes can write: no surrogate. */
  predicate IsBmpScalar(cp: int) {
    0 <= cp < 0x10000 && !(0xD800 <= cp < 0xE000)
  }

  /**
   * The code point of a byte of the upper half. The five bytes the Windows
   * code page leaves unassigned (0x81, 0x83, 0x88, 0x90, 0x98) are the C1
   * controls of the same value, as in the WHATWG index x/text builds its table from.
   */
  function UpperCodePoint(b: byte): int
    requires 0x80 <= b
  {
    if b < 0xC0 then
      if b < 0xA0 then
        if b < 0x90 then
          if b < 0x88 then
            if b < 0x84 then
              if b < 0x82 then
                if b < 0x81 then
                  0x20AC
                else
                  0x0081
              else
                if b < 0x83 then
                  0x201A
                else
                  0x0083
            else
              if b < 0x86 then
                if b < 0x85 then
                  0x201E
                else
                  0x2026
              else
                if b < 0x87 then
                  0x2020
                else
                  0x2021
          else
            if b < 0x8C then
              if b < 0x8A then
                if b < 0x89 then
                  0x0088
                else
                  0x2030
              else
                if b < 0x8B then
                  0x0160
                else
                  0x2039
            else
              if b < 0x8E then
                if b < 0x8D then
                  0x015A
                else
                  0x0164
              else
                if b < 0x8F then
                  0x017D
                else
                  0x0179
        else
          if b < 0x98 then
            if b < 0x94 then
              if b < 0x92 then
                if b < 0x91 then
                  0x0090
                else
                  0x2018
              else
                if b < 0x93 then
                  0x2019
                else
                  0x201C
            else
              if b < 0x96 then
                if b < 0x95 then
                  0x201D
                else
                  0x2022
              else
                if b < 0x97 then
                  0x2013
                else
                  0x2014
          else
            if b < 0x9C then
              if b < 0x9A then
                if b < 0x99 then
                  0x0098
                else
                  0x2122
              else
                if b < 0x9B then
                  0x0161
                else
                  0x203A
            else
              if b < 0x9E then
                if b < 0x9D then
                  0x015B
                else
                  0x0165
              else
                if b < 0x9F then
                  0x017E
                else
                  0x017A
      else
        if b < 0xB0 then
          if b < 0xA8 then
            if b < 0xA4 then
              if b < 0xA2 then
                if b < 0xA1 then
                  0x00A0
                else
                  0x02C7
              else
                if b < 0xA3 then
                  0x02D8
                else
                  0x0141
            else
              if b < 0xA6 then
                if b < 0xA5 then
                  0x00A4
                else
                  0x0104
              else
                if b < 0xA7 then
                  0x00A6
                else
                  0x00A7
          else
            if b < 0xAC then
              if b < 0xAA then
                if b < 0xA9 then
                  0x00A8
                else
                  0x00A9
              else
                if b < 0xAB then
                  0x015E
                else
                  0x00AB
            else
              if b < 0xAE then
                if b < 0xAD then
                  0x00AC
                else
                  0x00AD
              else
                if b < 0xAF then
                  0x00AE
                else
                  0x017B
        else
          if b < 0xB8 then
            if b < 0xB4 then
              if b < 0xB2 then
                if b < 0xB1 then
                  0x00B0
                else
                  0x00B1
              else
                if b < 0xB3 then
                  0x02DB
                else
                  0x0142
            else
              if b < 0xB6 then
                if b < 0xB5 then
                  0x00B4
                else
                  0x00B5
              else
                if b < 0xB7 then
                  0x00B6
                else
                  0x00B7
          else
            if b < 0xBC then
              if b < 0xBA then
                if b < 0xB9 then
                  0x00B8
                else
                  0x0105
              else
                if b < 0xBB then
                  0x015F
                else
                  0x00BB
            else
              if b < 0xBE then
                if b < 0xBD then
                  0x013D
                else
                  0x02DD
              else
                if b < 0xBF then
                  0x013E
                else
                  0x017C
    else
      if b < 0xE0 then
        if b < 0xD0 then
          if b < 0xC8 then
            if b < 0xC4 then
              if b < 0xC2 then
                if b < 0xC1 then
                  0x0154
                else
                  0x00C1
              else
                if b < 0xC3 then
                  0x00C2
                else
                  0x0102
            else
              if b < 0xC6 then
                if b < 0xC5 then
                  0x00C4
                else
                  0x0139
              else
                if b < 0xC7 then
                  0x0106
                else
                  0x00C7
          else
            if b < 0xCC then
              if b < 0xCA then
                if b < 0xC9 then
                  0x010C
                else
                  0x00C9
              else
                if b < 0xCB then
                  0x0118
                else
                  0x00CB
            else
              if b < 0xCE then
                if b < 0xCD then
                  0x011A
                else
                  0x00CD
              else
                if b < 0xCF then
                  0x00CE
                else
                  0x010E
        else
          if b < 0xD8 then
            if b < 0xD4 then
              if b < 0xD2 then
                if b < 0xD1 then
                  0x0110
                else
                  0x0143
              else
                if b < 0xD3 then
                  0x0147
                else
                  0x00D3
            else
              if b < 0xD6 then
                if b < 0xD5 then
                  0x00D4
                else
                  0x0150
              else
                if b < 0xD7 then
                  0x00D6
                else
                  0x00D7
          else
            if b < 0xDC then
              if b < 0xDA then
                if b < 0xD9 then
                  0x0158
                else
                  0x016E
              else
                if b < 0xDB then
                  0x00DA
                else
                  0x0170
            else
              if b < 0xDE then
                if b < 0xDD then
                  0x00DC
                else
                  0x00DD
              else
                if b < 0xDF then
                  0x0162
                else
                  0x00DF
      else
        if b < 0xF0 then
          if b < 0xE8 then
            if b < 0xE4 then
              if b < 0xE2 then
                if b < 0xE1 then
                  0x0155
                else
                  0x00E1
              else
                if b < 0xE3 then
                  0x00E2
                else
                  0x0103
            else
              if b < 0xE6 then
                if b < 0xE5 then
                  0x00E4
                else
                  0x013A
              else
                if b < 0xE7 then
                  0x0107
                else
                  0x00E7
          else
            if b < 0xEC then
              if b < 0xEA then
                if b < 0xE9 then
                  0x010D
                else
                  0x00E9
              else
                if b < 0xEB then
                  0x0119
                else
                  0x00EB
            else
              if b < 0xEE then
                if b < 0xED then
                  0x011B
                else
                  0x00ED
              else
                if b < 0xEF then
                  0x00EE
                else
                  0x010F
        else
          if b < 0xF8 then
            if b < 0xF4 then
              if b < 0xF2 then
                if b < 0xF1 then
                  0x0111
                else
                  0x0144
              else
                if b < 0xF3 then
                  0x0148
                else
                  0x00F3
            else
              if b < 0xF6 then
                if b < 0xF5 then
                  0x00F4
                else
                  0x0151
              else
                if b < 0xF7 then
                  0x00F6
                else
                  0x00F7
          else
            if b < 0xFC then
              if b < 0xFA then
                if b < 0xF9 then
                  0x0159
                else
                  0x016F
              else
                if b < 0xFB then
                  0x00FA
                else
                  0x0171
            else
              if b < 0xFE then
                if b < 0xFD then
                  0x00FC
                else
                  0x00FD
              else
                if b < 0xFF then
                  0x0163
                else
                  0x02D9
  }

  /**
   * The encoder's table: the byte of each supported code point above ASCII,
   * found by halving the sorted range of code points as the charmap
   * encoder's binary search does.
   */
  function ByteOf(cp: int): Option<byte> {
    if cp < 0x0110 then
      if cp < 0x00D4 then
        if cp < 0x00B1 then
          if cp < 0x00A7 then
            if cp < 0x0098 then
              if cp < 0x0088 then
                if cp < 0x0083 then
                  if cp == 0x0081 then Some(0x81) else None
                else
                  if cp == 0x0083 then Some(0x83) else None
              else
                if cp < 0x0090 then
                  if cp == 0x0088 then Some(0x88) else None
                else
                  if cp == 0x0090 then Some(0x90) else None
            else
              if cp < 0x00A4 then
                if cp < 0x00A0 then
                  if cp == 0x0098 then Some(0x98) else None
                else
                  if cp == 0x00A0 then Some(0xA0) else None
              else
                if cp < 0x00A6 then
                  if cp == 0x00A4 then Some(0xA4) else None
                else
                  if cp == 0x00A6 then Some(0xA6) else None
          else
            if cp < 0x00AC then
              if cp < 0x00A9 then
                if cp < 0x00A8 then
                  if cp == 0x00A7 then Some(0xA7) else None
                else
                  if cp == 0x00A8 then Some(0xA8) else None
              else
                if cp < 0x00AB then
                  if cp == 0x00A9 then Some(0xA9) else None
                else
                  if cp == 0x00AB then Some(0xAB) else None
            else
              if cp < 0x00AE then
                if cp < 0x00AD then
                  if cp == 0x00AC then Some(0xAC) else None
                else
                  if cp == 0x00AD then Some(0xAD) else None
              else
                if cp < 0x00B0 then
                  if cp == 0x00AE then Some(0xAE) else None
                else
                  if cp == 0x00B0 then Some(0xB0) else None
        else
          if cp < 0x00C2 then
            if cp < 0x00B7 then
              if cp < 0x00B5 then
                if cp < 0x00B4 then
                  if cp == 0x00B1 then Some(0xB1) else None
                else
                  if cp == 0x00B4 then Some(0xB4) else None
              else
                if cp < 0x00B6 then
                  if cp == 0x00B5 then Some(0xB5) else None
                else
                  if cp == 0x00B6 then Some(0xB6) else None
            else
              if cp < 0x00BB then
                if cp < 0x00B8 then
                  if cp == 0x00B7 then Some(0xB7) else None
                else
                  if cp == 0x00B8 then Some(0xB8) else None
              else
                if cp < 0x00C1 then
                  if cp == 0x00BB then Some(0xBB) else None
                else
                  if cp == 0x00C1 then Some(0xC1) else None
          else
            if cp < 0x00CB then
              if cp < 0x00C7 then
                if cp < 0x00C4 then
                  if cp == 0x00C2 then Some(0xC2) else None
                else
                  if cp == 0x00C4 then Some(0xC4) else None
              else
                if cp < 0x00C9 then
                  if cp == 0x00C7 then Some(0xC7) else None
                else
                  if cp == 0x00C9 then Some(0xC9) else None
            else
              if cp < 0x00CE then
                if cp < 0x00CD then
                  if cp == 0x00CB then Some(0xCB) else None
                else
                  if cp == 0x00CD then Some(0xCD) else None
              else
                if cp < 0x00D3 then
                  if cp == 0x00CE then Some(0xCE) else None
                else
                  if cp == 0x00D3 then Some(0xD3) else None
      else
        if cp < 0x00F4 then
          if cp < 0x00E2 then
            if cp < 0x00DC then
              if cp < 0x00D7 then
                if cp < 0x00D6 then
                  if cp == 0x00D4 then Some(0xD4) else None
                else
                  if cp == 0x00D6 then Some(0xD6) else None
              else
                if cp < 0x00DA then
                  if cp == 0x00D7 then Some(0xD7) else None
                else
                  if cp == 0x00DA then Some(0xDA) else None
            else
              if cp < 0x00DF then
                if cp < 0x00DD then
                  if cp == 0x00DC then Some(0xDC) else None
                else
                  if cp == 0x00DD then Some(0xDD) else None
              else
                if cp < 0x00E1 then
                  if cp == 0x00DF then Some(0xDF) else None
                else
                  if cp == 0x00E1 then Some(0xE1) else None
          else
            if cp < 0x00EB then
              if cp < 0x00E7 then
                if cp < 0x00E4 then
                  if cp == 0x00E2 then Some(0xE2) else None
                else
                  if cp == 0x00E4 then Some(0xE4) else None
              else
                if cp < 0x00E9 then
                  if cp == 0x00E7 then Some(0xE7) else None
                else
                  if cp == 0x00E9 then Some(0xE9) else None
            else
              if cp < 0x00EE then
                if cp < 0x00ED then
                  if cp == 0x00EB then Some(0xEB) else None
                else
                  if cp == 0x00ED then Some(0xED) else None
              else
                if cp < 0x00F3 then
                  if cp == 0x00EE then Some(0xEE) else None
                else
                  if cp == 0x00F3 then Some(0xF3) else None
        else
          if cp < 0x0104 then
            if cp < 0x00FC then
              if cp < 0x00F7 then
                if cp < 0x00F6 then
                  if cp == 0x00F4 then Some(0xF4) else None
                else
                  if cp == 0x00F6 then Some(0xF6) else None
              else
                if cp < 0x00FA then
                  if cp == 0x00F7 then Some(0xF7) else None
                else
                  if cp == 0x00FA then Some(0xFA) else None
            else
              if cp < 0x0102 then
                if cp < 0x00FD then
                  if cp == 0x00FC then Some(0xFC) else None
                else
                  if cp == 0x00FD then Some(0xFD) else None
              else
                if cp < 0x0103 then
                  if cp == 0x0102 then Some(0xC3) else None
                else
                  if cp == 0x0103 then Some(0xE3) else None
          else
            if cp < 0x010C then
              if cp < 0x0106 then
                if cp < 0x0105 then
                  if cp == 0x0104 then Some(0xA5) else None
                else
                  if cp == 0x0105 then Some(0xB9) else None
              else
                if cp < 0x0107 then
                  if cp == 0x0106 then Some(0xC6) else None
                else
                  if cp == 0x0107 then Some(0xE6) else None
            else
              if cp < 0x010E then
                if cp < 0x010D then
                  if cp == 0x010C then Some(0xC8) else None
                else
                  if cp == 0x010D then Some(0xE8) else None
              else
                if cp < 0x010F then
                  if cp == 0x010E then Some(0xCF) else None
                else
                  if cp == 0x010F then Some(0xEF) else None
    else
      if cp < 0x016E then
        if cp < 0x0150 then
          if cp < 0x013D then
            if cp < 0x011A then
              if cp < 0x0118 then
                if cp < 0x0111 then
                  if cp == 0x0110 then Some(0xD0) else None
                else
                  if cp == 0x0111 then Some(0xF0) else None
              else
                if cp < 0x0119 then
                  if cp == 0x0118 then Some(0xCA) else None
                else
                  if cp == 0x0119 then Some(0xEA) else None
            else
              if cp < 0x0139 then
                if cp < 0x011B then
                  if cp == 0x011A then Some(0xCC) else None
                else
                  if cp == 0x011B then Some(0xEC) else None
              else
                if cp < 0x013A then
                  if cp == 0x0139 then Some(0xC5) else None
                else
                  if cp == 0x013A then Some(0xE5) else None
          else
            if cp < 0x0143 then
              if cp < 0x0141 then
                if cp < 0x013E then
                  if cp == 0x013D then Some(0xBC) else None
                else
                  if cp == 0x013E then Some(0xBE) else None
              else
                if cp < 0x0142 then
                  if cp == 0x0141 then Some(0xA3) else None
                else
                  if cp == 0x0142 then Some(0xB3) else None
            else
              if cp < 0x0147 then
                if cp < 0x0144 then
                  if cp == 0x0143 then Some(0xD1) else None
                else
                  if cp == 0x0144 then Some(0xF1) else None
              else
                if cp < 0x0148 then
                  if cp == 0x0147 then Some(0xD2) else None
                else
                  if cp == 0x0148 then Some(0xF2) else None
        else
          if cp < 0x015E then
            if cp < 0x0158 then
              if cp < 0x0154 then
                if cp < 0x0151 then
                  if cp == 0x0150 then Some(0xD5) else None
                else
                  if cp == 0x0151 then Some(0xF5) else None
              else
                if cp < 0x0155 then
                  if cp == 0x0154 then Some(0xC0) else None
                else
                  if cp == 0x0155 then Some(0xE0) else None
            else
              if cp < 0x015A then
                if cp < 0x0159 then
                  if cp == 0x0158 then Some(0xD8) else None
                else
                  if cp == 0x0159 then Some(0xF8) else None
              else
                if cp < 0x015B then
                  if cp == 0x015A then Some(0x8C) else None
                else
                  if cp == 0x015B then Some(0x9C) else None
          else
            if cp < 0x0162 then
              if cp < 0x0160 then
                if cp < 0x015F then
                  if cp == 0x015E then Some(0xAA) else None
                else
                  if cp == 0x015F then Some(0xBA) else None
              else
                if cp < 0x0161 then
                  if cp == 0x0160 then Some(0x8A) else None
                else
                  if cp == 0x0161 then Some(0x9A) else None
            else
              if cp < 0x0164 then
                if cp < 0x0163 then
                  if cp == 0x0162 then Some(0xDE) else None
                else
                  if cp == 0x0163 then Some(0xFE) else None
              else
                if cp < 0x0165 then
                  if cp == 0x0164 then Some(0x8D) else None
                else
                  if cp == 0x0165 then Some(0x9D) else None
      else
        if cp < 0x2014 then
          if cp < 0x017D then
            if cp < 0x0179 then
              if cp < 0x0170 then
                if cp < 0x016F then
                  if cp == 0x016E then Some(0xD9) else None
                else
                  if cp == 0x016F then Some(0xF9) else None
              else
                if cp < 0x0171 then
                  if cp == 0x0170 then Some(0xDB) else None
                else
                  if cp == 0x0171 then Some(0xFB) else None
            else
              if cp < 0x017B then
                if cp < 0x017A then
                  if cp == 0x0179 then Some(0x8F) else None
                else
                  if cp == 0x017A then Some(0x9F) else None
              else
                if cp < 0x017C then
                  if cp == 0x017B then Some(0xAF) else None
                else
                  if cp == 0x017C then Some(0xBF) else None
          else
            if cp < 0x02D9 then
              if cp < 0x02C7 then
                if cp < 0x017E then
                  if cp == 0x017D then Some(0x8E) else None
                else
                  if cp == 0x017E then Some(0x9E) else None
              else
                if cp < 0x02D8 then
                  if cp == 0x02C7 then Some(0xA1) else None
                else
                  if cp == 0x02D8 then Some(0xA2) else None
            else
              if cp < 0x02DD then
                if cp < 0x02DB then
                  if cp == 0x02D9 then Some(0xFF) else None
                else
                  if cp == 0x02DB then Some(0xB2) else None
              else
                if cp < 0x2013 then
                  if cp == 0x02DD then Some(0xBD) else None
                else
                  if cp == 0x2013 then Some(0x96) else None
        else
          if cp < 0x2021 then
            if cp < 0x201C then
              if cp < 0x2019 then
                if cp < 0x2018 then
                  if cp == 0x2014 then Some(0x97) else None
                else
                  if cp == 0x2018 then Some(0x91) else None
              else
                if cp < 0x201A then
                  if cp == 0x2019 then Some(0x92) else None
                else
                  if cp == 0x201A then Some(0x82) else None
            else
              if cp < 0x201E then
                if cp < 0x201D then
                  if cp == 0x201C then Some(0x93) else None
                else
                  if cp == 0x201D then Some(0x94) else None
              else
                if cp < 0x2020 then
                  if cp == 0x201E then Some(0x84) else None
                else
                  if cp == 0x2020 then Some(0x86) else None
          else
            if cp < 0x2039 then
              if cp < 0x2026 then
                if cp < 0x2022 then
                  if cp == 0x2021 then Some(0x87) else None
                else
                  if cp == 0x2022 then Some(0x95) else None
              else
                if cp < 0x2030 then
                  if cp == 0x2026 then Some(0x85) else None
                else
                  if cp == 0x2030 then Some(0x89) else None
            else
              if cp < 0x20AC then
                if cp < 0x203A then
                  if cp == 0x2039 then Some(0x8B) else None
                else
                  if cp == 0x203A then Some(0x9B) else None
              else
                if cp < 0x2122 then
                  if cp == 0x20AC then Some(0x80) else None
                else
                  if cp == 0x2122 then Some(0x99) else None
  }

  /** The code point a byte decodes to; every byte has one. */
  function CodePoint(b: byte): (cp: int)
    ensures b < 0x80 <==> cp < 0x80
    ensures b < 0x80 ==> cp == b
    ensures IsBmpScalar(cp)
  {
    if b < 0x80 then b else UpperCodePoint(b)
  }

  /** The UTF-8 encoding of a code point below U+10000. */
  function Utf8(cp: int): (r: bytes)
    requires 0 <= cp < 0x10000
  {
    if cp < 0x80 then [cp]
    else if cp < 0x800 then [0xC0 + cp / 64, 0x80 + cp % 64]
    else [0xE0 + cp / 4096, 0x80 + cp / 64 % 64, 0x80 + cp % 64]
  }

  /** Decoder.Bytes: each byte becomes the UTF-8 of its code point; it never fails. */
  function Decode(s: bytes): (r: bytes)
  {
    if s == [] then [] else Utf8(CodePoint(s[0])) + Decode(s[1..])
  }

  predicate IsContinuation(b: byte) {
    0x80 <= b < 0xC0
  }

  /**
   * utf8.DecodeRune at the head of s when its first byte is not ASCII: the
   * code point and the length of a valid rune of two or three bytes. Invalid
   * or cut-off UTF-8 gives None; so does a valid four-byte rune, which lies
   * above every code point of the table, so that the encoder refuses it either way.
   */
  function NextRune(s: bytes): (r: Option<(int, nat)>)
    requires |s| > 0 && s[0] >= 0x80
    ensures r.Some? ==> 0x80 <= r.value.0 && IsBmpScalar(r.value.0) && 2 <= r.value.1 <= 3 && r.value.1 <= |s|
  {
    if 0xC2 <= s[0] < 0xE0 && |s| >= 2 && IsContinuation(s[1]) then
      Some(((s[0] as int - 0xC0) * 64 + (s[1] as int - 0x80), 2))
    else if 0xE0 <= s[0] < 0xF0 && |s| >= 3 && IsContinuation(s[1]) && IsContinuation(s[2])
      && (s[0] != 0xE0 || s[1] >= 0xA0) && (s[0] != 0xED || s[1] < 0xA0) then
      Some(((s[0] as int - 0xE0) * 4096 + (s[1] as int - 0x80) * 64 + (s[2] as int - 0x80), 3))
    else None
  }

  /**
   * Encoder.String: ASCII bytes pass; every other rune is looked up in the
   * table. Invalid UTF-8 and a code point the table lacks are a
   * RepertoireError (None), and nothing is returned.
   */
  function Encode(s: bytes): (r: Option<bytes>)
    decreases |s|
  {
    if s == [] then Some([])
    else if s[0] < 0x80 then
      match Encode(s[1..])
      case None => None
      case Some(rest) => Some([s[0]] + rest)
    else
      match NextRune(s)
      case None => None
      case Some((cp, k)) =>
        match ByteOf(cp)
        case None => None
        case Some(b) =>
          match Encode(s[k..])
          case None => None
          case Some(rest) => Some([b] + rest)
  }

  // ---------------------------------------------------------------------
  // The two tables agree

  /**
   * Every byte from lo to the top of the table is found again by
   * the encoder's table. Checked a byte at a time, downwards, where each
   * step evaluates both tables on one literal byte.
   */
  predicate AgreesFrom(lo: int)
    requires 0x80 <= lo <= 0x100
    decreases 0x100 - lo
  {
    lo == 0x100 || (ByteOf(CodePoint(lo)) == Some(lo) && AgreesFrom(lo + 1))
  }

  lemma AgreesFromF0()
    ensures AgreesFrom(0xF0)
  {
    assert AgreesFrom(0xFF);
    assert AgreesFrom(0xFE);
    assert AgreesFrom(0xFD);
    assert AgreesFrom(0xFC);
    assert AgreesFrom(0xFB);
    assert AgreesFrom(0xFA);
    assert AgreesFrom(0xF9);
    assert AgreesFrom(0xF8);
    assert AgreesFrom(0xF7);
    assert AgreesFrom(0xF6);
    assert AgreesFrom(0xF5);
    assert AgreesFrom(0xF4);
    assert AgreesFrom(0xF3);
    assert AgreesFrom(0xF2);
    assert AgreesFrom(0xF1);
  }

  lemma AgreesFromE0()
    ensures AgreesFrom(0xE0)
  {
    AgreesFromF0();
    assert AgreesFrom(0xEF);
    assert AgreesFrom(0xEE);
    assert AgreesFrom(0xED);
    assert AgreesFrom(0xEC);
    assert AgreesFrom(0xEB);
    assert AgreesFrom(0xEA);
    assert AgreesFrom(0xE9);
    assert AgreesFrom(0xE8);
    assert AgreesFrom(0xE7);
    assert AgreesFrom(0xE6);
    assert AgreesFrom(0xE5);
    assert AgreesFrom(0xE4);
    assert AgreesFrom(0xE3);
    assert AgreesFrom(0xE2);
    assert AgreesFrom(0xE1);
  }

  lemma AgreesFromD0()
    ensures AgreesFrom(0xD0)
  {
    AgreesFromE0();
    assert AgreesFrom(0xDF);
    assert AgreesFrom(0xDE);
    assert AgreesFrom(0xDD);
    assert AgreesFrom(0xDC);
    assert AgreesFrom(0xDB);
    assert AgreesFrom(0xDA);
    assert AgreesFrom(0xD9);
    assert AgreesFrom(0xD8);
    assert AgreesFrom(0xD7);
    assert AgreesFrom(0xD6);
    assert AgreesFrom(0xD5);
    assert AgreesFrom(0xD4);
    assert AgreesFrom(0xD3);
    assert AgreesFrom(0xD2);
    assert AgreesFrom(0xD1);
  }

  lemma AgreesFromC0()
    ensures AgreesFrom(0xC0)
  {
    AgreesFromD0();
    assert AgreesFrom(0xCF);
    assert AgreesFrom(0xCE);
    assert AgreesFrom(0xCD);
    assert AgreesFrom(0xCC);
    assert AgreesFrom(0xCB);
    assert AgreesFrom(0xCA);
    assert AgreesFrom(0xC9);
    assert AgreesFrom(0xC8);
    assert AgreesFrom(0xC7);
    assert AgreesFrom(0xC6);
    assert AgreesFrom(0xC5);
    assert AgreesFrom(0xC4);
    assert AgreesFrom(0xC3);
    assert AgreesFrom(0xC2);
    assert AgreesFrom(0xC1);
  }

  lemma AgreesFromB0()
    ensures AgreesFrom(0xB0)
  {
    AgreesFromC0();
    assert AgreesFrom(0xBF);
    assert AgreesFrom(0xBE);
    assert AgreesFrom(0xBD);
    assert AgreesFrom(0xBC);
    assert AgreesFrom(0xBB);
    assert AgreesFrom(0xBA);
    assert AgreesFrom(0xB9);
    assert AgreesFrom(0xB8);
    assert AgreesFrom(0xB7);
    assert AgreesFrom(0xB6);
    assert AgreesFrom(0xB5);
    assert AgreesFrom(0xB4);
    assert AgreesFrom(0xB3);
    assert AgreesFrom(0xB2);
    assert AgreesFrom(0xB1);
  }

  lemma AgreesFromA0()
    ensures AgreesFrom(0xA0)
  {
    AgreesFromB0();
    assert AgreesFrom(0xAF);
    assert AgreesFrom(0xAE);
    assert AgreesFrom(0xAD);
    assert AgreesFrom(0xAC);
    assert AgreesFrom(0xAB);
    assert AgreesFrom(0xAA);
    assert AgreesFrom(0xA9);
    assert AgreesFrom(0xA8);
    assert AgreesFrom(0xA7);
    assert AgreesFrom(0xA6);
    assert AgreesFrom(0xA5);
    assert AgreesFrom(0xA4);
    assert AgreesFrom(0xA3);
    assert AgreesFrom(0xA2);
    assert AgreesFrom(0xA1);
  }

  lemma AgreesFrom90()
    ensures AgreesFrom(0x90)
  {
    AgreesFromA0();
    assert AgreesFrom(0x9F);
    assert AgreesFrom(0x9E);
    assert AgreesFrom(0x9D);
    assert AgreesFrom(0x9C);
    assert AgreesFrom(0x9B);
    assert AgreesFrom(0x9A);
    assert AgreesFrom(0x99);
    assert AgreesFrom(0x98);
    assert AgreesFrom(0x97);
    assert AgreesFrom(0x96);
    assert AgreesFrom(0x95);
    assert AgreesFrom(0x94);
    assert AgreesFrom(0x93);
    assert AgreesFrom(0x92);
    assert AgreesFrom(0x91);
  }

  lemma AgreesFrom80()
    ensures AgreesFrom(0x80)
  {
    AgreesFrom90();
    assert AgreesFrom(0x8F);
    assert AgreesFrom(0x8E);
    assert AgreesFrom(0x8D);
    assert AgreesFrom(0x8C);
    assert AgreesFrom(0x8B);
    assert AgreesFrom(0x8A);
    assert AgreesFrom(0x89);
    assert AgreesFrom(0x88);
    assert AgreesFrom(0x87);
    assert AgreesFrom(0x86);
    assert AgreesFrom(0x85);
    assert AgreesFrom(0x84);
    assert AgreesFrom(0x83);
    assert AgreesFrom(0x82);
    assert AgreesFrom(0x81);
  }

  lemma {:induction false} AgreesFromAt(lo: int, b: byte)
    requires 0x80 <= lo <= b && AgreesFrom(lo)
    ensures ByteOf(CodePoint(b)) == Some(b)
    decreases b - lo
  {
    if lo < b {
      AgreesFromAt(lo + 1, b);
    }
  }

  /** Every byte of the upper half is found again by the encoder's table. */
  lemma ByteOfCodePoint(b: byte)
    requires 0x80 <= b
    ensures ByteOf(CodePoint(b)) == Some(b)
  {
    AgreesFrom80();
    AgreesFromAt(0x80, b);
  }

  lemma CodePointOfByteOfBelow00D4(cp: int)
    requires cp < 0x00D4 && ByteOf(cp).Some?
    ensures 0x80 <= ByteOf(cp).value && CodePoint(ByteOf(cp).value) == cp
  {
  }

  lemma CodePointOfByteOfFrom00D4(cp: int)
    requires 0x00D4 <= cp < 0x0110 && ByteOf(cp).Some?
    ensures 0x80 <= ByteOf(cp).value && CodePoint(ByteOf(cp).value) == cp
  {
  }

  lemma CodePointOfByteOfFrom0110(cp: int)
    requires 0x0110 <= cp < 0x016E && ByteOf(cp).Some?
    ensures 0x80 <= ByteOf(cp).value && CodePoint(ByteOf(cp).value) == cp
  {
  }

  lemma CodePointOfByteOfFrom016E(cp: int)
    requires 0x016E <= cp && ByteOf(cp).Some?
    ensures 0x80 <= ByteOf(cp).value && CodePoint(ByteOf(cp).value) == cp
  {
  }

  /** The encoder's table only names bytes of the upper half that decode to that code point. */
  lemma CodePointOfByteOf(cp: int)
    requires ByteOf(cp).Some?
    ensures 0x80 <= ByteOf(cp).value && CodePoint(ByteOf(cp).value) == cp
  {
    if cp < 0x00D4 {
      CodePointOfByteOfBelow00D4(cp);
    } else if cp < 0x0110 {
      CodePointOfByteOfFrom00D4(cp);
    } else if cp < 0x016E {
      CodePointOfByteOfFrom0110(cp);
    } else {
      CodePointOfByteOfFrom016E(cp);
    }
  }

  // ---------------------------------------------------------------------
  // UTF-8 of one rune

  lemma NextRuneOfUtf8Two(cp: int, rest: bytes)
    requires 0x80 <= cp < 0x800
    ensures NextRune(Utf8(cp) + rest) == Some((cp, 2))
  {
    var hi, lo := cp / 64, cp % 64;
    assert cp == hi * 64 + lo;
    var s := Utf8(cp) + rest;
    assert s[0] == 0xC0 + hi && s[1] == 0x80 + lo;
  }

  lemma NextRuneOfUtf8Three(cp: int, rest: bytes)
    requires 0x800 <= cp < 0x10000 && !(0xD800 <= cp < 0xE000)
    ensures NextRune(Utf8(cp) + rest) == Some((cp, 3))
  {
    var hi, mid, lo := cp / 4096, cp / 64 % 64, cp % 64;
    assert cp / 64 == hi * 64 + mid;
    assert cp == (hi * 64 + mid) * 64 + lo;
    assert cp == hi * 4096 + mid * 64 + lo;
    var s := Utf8(cp) + rest;
    assert s[0] == 0xE0 + hi && s[1] == 0x80 + mid && s[2] == 0x80 + lo;
  }

  /** utf8.DecodeRune reads back the code point Utf8 wrote, and just its bytes. */
  lemma NextRuneOfUtf8(cp: int, rest: bytes)
    requires 0x80 <= cp && IsBmpScalar(cp)
    ensures NextRune(Utf8(cp) + rest) == Some((cp, |Utf8(cp)|))
  {
    if cp < 0x800 {
      NextRuneOfUtf8Two(cp, rest);
    } else {
      NextRuneOfUtf8Three(cp, rest);
    }
  }

  /** A rune utf8.DecodeRune accepts is spelt exactly as Utf8 spells its code point. */
  lemma Utf8OfNextRune(s: bytes)
    requires |s| > 0 && s[0] >= 0x80 && NextRune(s).Some?
    ensures s[..NextRune(s).value.1] == Utf8(NextRune(s).value.0)
  {
    var (cp, k) := NextRune(s).value;
    if k == 2 {
      assert cp / 64 == s[0] as int - 0xC0 && cp % 64 == s[1] as int - 0x80;
    } else {
      assert cp / 64 == (s[0] as int - 0xE0) * 64 + (s[1] as int - 0x80) && cp % 64 == s[2] as int - 0x80;
      assert cp / 4096 == s[0] as int - 0xE0 && cp / 64 % 64 == s[1] as int - 0x80;
    }
  }

  // ---------------------------------------------------------------------
  // Round trips

  /** Every text survives decoding and encoding again: the decoder loses nothing. */
  lemma {:induction false} EncodeOfDecode(s: bytes)
    ensures Encode(Decode(s)) == Some(s)
  {
    if s != [] {
      var cp := CodePoint(s[0]);
      var u := Utf8(cp);
      var rest := Decode(s[1..]);
      assert Decode(s) == u + rest;
      EncodeOfDecode(s[1..]);
      if s[0] < 0x80 {
        assert (u + rest)[1..] == rest;
      } else {
        NextRuneOfUtf8(cp, rest);
        ByteOfCodePoint(s[0]);
        assert (u + rest)[|u|..] == rest;
      }
      assert [s[0]] + s[1..] == s;
    }
  }

  /** A rune the encoder accepts at the head of s becomes one byte, which decodes to that rune. */
  lemma DecodeOfEncodeRune(s: bytes)
    requires |s| > 0 && s[0] >= 0x80 && Encode(s).Some?
    ensures NextRune(s).Some? && Encode(s[NextRune(s).value.1..]).Some?
    ensures Decode(Encode(s).value) == s[..NextRune(s).value.1] + Decode(Encode(s[NextRune(s).value.1..]).value)
  {
    var (cp, k) := NextRune(s).value;
    var b := ByteOf(cp).value;
    var rest := Encode(s[k..]).value;
    assert Encode(s).value == [b] + rest;
    CodePointOfByteOf(cp);
    Utf8OfNextRune(s);
    DecodeAppend([b], rest);
    assert Decode([b]) == Utf8(cp);
  }

  /** Whatever the encoder accepts, the decoder gives back. */
  lemma {:induction false} DecodeOfEncode(s: bytes)
    requires Encode(s).Some?
    ensures Decode(Encode(s).value) == s
    decreases |s|
  {
    if s != [] {
      if s[0] < 0x80 {
        var e := Encode(s).value;
        DecodeOfEncode(s[1..]);
        assert e == [s[0]] + Encode(s[1..]).value;
        assert e[1..] == Encode(s[1..]).value;
        assert [s[0]] + s[1..] == s;
      } else {
        DecodeOfEncodeRune(s);
        var k := NextRune(s).value.1;
        DecodeOfEncode(s[k..]);
        assert s[..k] + s[k..] == s;
      }
    }
  }

  /** The decoder works byte by byte, so it distributes over concatenation. */
  lemma {:induction false} DecodeAppend(x: bytes, y: bytes)
    ensures Decode(x + y) == Decode(x) + Decode(y)
  {
    if x == [] {
      assert x + y == y;
    } else {
      assert (x + y)[0] == x[0] && (x + y)[1..] == x[1..] + y;
      DecodeAppend(x[1..], y);
    }
  }

  /** On ASCII text the decoder is the identity. */
  lemma {:induction false} DecodeAscii(s: bytes)
    requires IsAscii(s)
    ensures Decode(s) == s
  {
    if s != [] {
      DecodeAscii(s[1..]);
      assert [s[0]] + s[1..] == s;
    }
  }

  /** On ASCII text the encoder is the identity. */
  lemma {:induction false} EncodeAscii(s: bytes)
    requires IsAscii(s)
    ensures Encode(s) == Some(s)
  {
    if s != [] {
      EncodeAscii(s[1..]);
      assert [s[0]] + s[1..] == s;
    }
  }

  /** A Czech name: "Novák" in UTF-8 and in Windows-1250, which spells "á" as 0xE1. */
  lemma CzechName()
    ensures Encode([0x4E, 0x6F, 0x76, 0xC3, 0xA1, 0x6B]) == Some([0x4E, 0x6F, 0x76, 0xE1, 0x6B])
    ensures Decode([0x4E, 0x6F, 0x76, 0xE1, 0x6B]) == [0x4E, 0x6F, 0x76, 0xC3, 0xA1, 0x6B]
  {
    var name: bytes := [0x4E, 0x6F, 0x76, 0xE1, 0x6B];
    assert Decode(name) == [0x4E, 0x6F, 0x76, 0xC3, 0xA1, 0x6B];
    EncodeOfDecode(name);
  }

  /** A three-byte rune: the euro sign U+20AC is byte 0x80. */
  lemma EuroSign()
    ensures Encode([0xE2, 0x82, 0xAC]) == Some([0x80])
    ensures Decode([0x80]) == [0xE2, 0x82, 0xAC]
  {
    assert Decode([0x80]) == [0xE2, 0x82, 0xAC];
    EncodeOfDecode([0x80]);
  }

  /**
   * The five unassigned bytes decode to the C1 controls U+0081, U+0083,
   * U+0088, U+0090 and U+0098, and the encoder turns those back into the bytes.
   */
  lemma ControlBytes()
    ensures Decode([0x81, 0x83, 0x88, 0x90, 0x98])
         == [0xC2, 0x81, 0xC2, 0x83, 0xC2, 0x88, 0xC2, 0x90, 0xC2, 0x98]
    ensures Encode([0xC2, 0x81, 0xC2, 0x83, 0xC2, 0x88, 0xC2, 0x90, 0xC2, 0x98])
         == Some([0x81, 0x83, 0x88, 0x90, 0x98])
  {
    var controls: bytes := [0x81, 0x83, 0x88, 0x90, 0x98];
    assert Decode(controls) == [0xC2, 0x81, 0xC2, 0x83, 0xC2, 0x88, 0xC2, 0x90, 0xC2, 0x98];
    EncodeOfDecode(controls);
  }

  /**
   * No byte decodes to U+FFFD, so the encoder refuses it, as it refuses a
   * letter outside the code page (U+00F1) and a cut-off sequence.
   */
  lemma Refusals()
    ensures Encode([0xEF, 0xBF, 0xBD]) == None
    ensures Encode([0xC3, 0xB1]) == None
    ensures Encode([0x41, 0xC3]) == None
  {
    assert NextRune([0xEF, 0xBF, 0xBD]) == Some((0xFFFD, 3));
    assert NextRune([0xC3, 0xB1]) == Some((0xF1, 2));
  }
}
