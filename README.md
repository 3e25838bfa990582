# ABO/GPC codec model

A Dafny model of the record codec of `k3a/ago`, a Go library for the Czech
ABO banking format. It has four parts:

- **Field codec** (`io.dfy`, module `AboIO`, after `abo/io.go`).
  - Fixed-width fields are written to an append-only sink (`Writer`).
  - Fields are read from a byte stream through a cursor (`Reader`).
  - Strings are right-padded with spaces.
  - Integers are zero-padded on the left.
  - Dates are `DDMMYY`.
  - Names go through Windows-1250.
  - Monetary amounts are integers in minor units (haléře).
- **Payment orders** (`order.dfy`, module `AboOrder`, after `abo/order.go`).
  - `Order`, `Group` and `Item` are built up with `AddGroup`, `AddItem` and `AddItemSimple`.
  - They are written as the KPC text layout:
    - the `UHL1` header line;
    - the accounting line;
    - each group: its header line with the running total, its item lines, and `3 +`;
    - the closing `5 +`.
- **Bank statements** (`statement.dfy`, module `AboStatement`, after `abo/statement.go`).
  - A `074` header record is read into `Statement.Info`.
  - The `075` transaction records that follow, up to the end of the input, are read into `Statement.Transactions`.
- **Currencies** (`currency.dfy`, module `AboCurrency`, after `abo/currency/currency.go`).
  - The ISO 4217 numeric codes as 16-bit values.
  - Their name table and the named constants.
  - The case-insensitive lookup `FromString`.

- **Windows-1250** (`windows1250.dfy`, module `Windows1250`), the code page of
  `golang.org/x/text/encoding/charmap` that `abo/io.go` uses for names.
  - The decoder maps every byte to the UTF-8 of its code point, and never fails. ASCII maps to itself. The five bytes the Windows code page leaves unassigned (0x81, 0x83, 0x88, 0x90, 0x98) map to the C1 controls of the same value, as in the WHATWG index that x/text builds its table from, so no byte decodes to U+FFFD.
  - The encoder reads UTF-8 rune by rune and maps each rune back to its byte. Invalid UTF-8, and a rune the code page lacks, are an error.
  - The two tables are proved to agree, and decoding and encoding are proved to invert each other.

`wrappers.dfy` holds the `Option` and `Result` types.

Each operation that works step by step is modelled as a method over a class:

| class | models | proved against |
|---|---|---|
| `Writer` | the writer | the exact bytes appended, given by functions such as `IntField`, `ItemLine`, `GroupBytes` and `OrderBytes` |
| `Reader` | the reader | `Window` and `Advance` |
| `Group`, `Order` | the order objects | the same byte functions |
| `Transaction`, `Statement` | the statement objects | parser functions |

The parser functions say what the input decodes to at a given offset: `ParseTransaction`, `ParseTransactions`, `ParseHeader` and `ParseStatement`. The lemmas then relate these functions to each other:

- **Round trips.** Fields written within their width read back as their values. `Atoi` inverts `Itoa`. Dates format and parse back. Looking up a currency's name gives back its code.
- **Layouts.** Each written line holds its columns at fixed places, and a whole order or group is the concatenation of its lines.
- **Header total.** A group's header carries the sum of its item amounts.
- **Column characterisation.** A parsed record is exactly what its columns say, in both directions.
- **Record tiling.** Transaction records sit every 130 bytes, and the list ends exactly at the end of the input.

Three behaviours of the Go code that are easy to overlook:

- **Oversized integers.** `WritePad` writes `inBytes[:byteLen]`, so an integer wider than its field keeps its leading digits and loses its trailing ones. `AboIO.IntFieldTruncates` states this.
- **Negative integers.** `WriteInt` pads a negative value with zeros before its sign (`00-5`). Such a field does not read back (`AboIO.NegativeIntFieldUnreadable`).
- **Signed years.** `time.Parse` reads the two-byte year of `DDMMYY` with Go's `atoi`, which accepts a sign. So `0101-5` is 1 January 1995 and `0101+5` is 1 January 2005. A date therefore has more than one spelling (`AboIO.SignedYears`), and formatting gives back exactly the all-digit ones (`AboIO.FormatOfParse`).

## Model

| member | source | states |
|---|---|---|
| AboIO.Repeat | abo/io.go:94-97 | the padding slice: exactly n bytes, every one of them the padding byte |
| AboIO.Padded | abo/io.go:86-122 | WritePad always emits exactly `byteLen` bytes |
| AboIO.PaddedContents | abo/io.go:86-122 | longer data keeps its first `byteLen` bytes; shorter data sits at the end (padLeft) or the start of the field and every other byte is the padding byte |
| AboIO.Writer.WritePad | abo/io.go:86-122 | the sink grows by exactly the padded field, built by filling a pad buffer in a loop and writing pad and data in the order padLeft says |
| AboIO.Writer.Write | abo/io.go:82-84 | the embedded io.Writer appends all the bytes given |
| AboIO.Writer.WriteStr | abo/io.go:124-126 | a string field: right-padded with spaces or cut to the width |
| AboIO.Writer.WriteStrWindows1250 | abo/io.go:128-136 | a name the Windows-1250 encoder refuses is an error and nothing is written; otherwise the encoded name as a string field |
| AboIO.Writer.WriteInt | abo/io.go:138-140 | the decimal text of the integer, zero-padded on the left to the width |
| AboIO.Writer.WriteMonetaryAmount | abo/io.go:142-144 | the amount in minor units written as an integer field |
| AboIO.Writer.WriteTime | abo/io.go:146-148 | the date as DDMMYY in a six-column string field |
| AboIO.Writer.WriteLineEnd | abo/io.go:150-153 | one line-feed byte appended |
| AboIO.Writer.constructor | abo/io.go:155-160 | a new writer over an empty sink |
| AboIO.Reader.constructor | abo/io.go:75-80 | a new reader over the input, nothing consumed |
| AboIO.Window | abo/io.go:25-27 | a read of n bytes succeeds exactly when n bytes are left, yields exactly those bytes, and reports end of input exactly when no byte is left |
| AboIO.Advance | abo/io.go:25-27 | the cursor moves by n bytes, or to the end of the input, never backwards |
| AboIO.Reader.Read | abo/io.go:12-15 | the embedded io.Reader: the window at the cursor, and the cursor advanced past it |
| AboIO.Reader.ReadStr | abo/io.go:39-45 | the read error, or the field with white space trimmed |
| AboIO.Reader.ReadStrWindows1250 | abo/io.go:24-36 | the read error, or the field decoded from Windows-1250 and trimmed; decoding itself never fails |
| AboIO.Reader.ReadInt | abo/io.go:48-54 | the read error, or Atoi of the trimmed field |
| AboIO.Reader.ReadMonetaryAmount | abo/io.go:57-64 | the integer field, read as an amount in minor units |
| AboIO.Reader.ReadTime | abo/io.go:67-73 | the read error, or the trimmed field parsed as DDMMYY |
| AboIO.TrimLeft | abo/io.go:19-21 | the result is a suffix of the input, only white space was dropped, and it does not start with white space |
| AboIO.TrimRight | abo/io.go:19-21 | the result is a prefix of the input, only white space was dropped, and it does not end with white space |
| AboIO.CleanStr | abo/io.go:19-21 | cleanStr leaves no white space at either edge, changes nothing that has none, and maps an all-blank field to the empty string |
| AboIO.CleanStrOfPadded | abo/io.go:19-21 | trimming a right-space-padded string without edge spaces gives back the string |
| AboIO.Digits | abo/io.go:139 | Itoa's digits: at least one decimal digit, and no leading zero unless the value is 0 |
| AboIO.DigitsWidth | abo/io.go:87 | the decimal text of n fits a field of w columns exactly when n < 10^w |
| AboIO.AtoiOfItoa | abo/io.go:48-54 | Atoi inverts Itoa on every integer, negative ones included |
| AboIO.Itoa | abo/io.go:139 | no contract of its own; the body follows strconv.Itoa's base-10 spelling, and AtoiOfItoa states the round trip |
| AboIO.Atoi | abo/io.go:53 | no contract of its own; the body follows strconv.Atoi's base-10 syntax, and AtoiOfItoa states the round trip |
| AboIO.FormatDDMMYY | abo/io.go:147 | time.Format with "020106": six decimal digits |
| AboIO.YearOfCentury | abo/io.go:72 | the year element of "020106": two digits, or a sign and one digit; the result is a year of the century |
| AboIO.ParseDDMMYY | abo/io.go:67-73 | a parse failure reports the text it was given |
| AboIO.ParseOfFormat | abo/io.go:146-148 | formatting a date as DDMMYY gives six bytes that parse back to the same date |
| AboIO.FormatOfParse | abo/io.go:67-73 | a text that parses is the formatting of its date exactly when it is all digits |
| AboIO.SignedYears | abo/io.go:72 | "0101-5" parses as 1 January 1995, like "010195"; "0101+5" parses like "010105"; "0101-0" is 1 January 2000 |
| AboIO.DecodeStrWindows1250 | abo/io.go:29-35 | the transcoding reader's field: the decoder's output, trimmed, and never an error |
| AboIO.AsciiFieldDecodes | abo/io.go:24-45 | on an ASCII field ReadStrWindows1250 and ReadStr agree |
| AboIO.IntFieldRoundTrip | abo/io.go:138-140 | an integer in 0..10^w-1, written as a w-column field, reads back as itself |
| AboIO.IntFieldTruncates | abo/io.go:87-91 | an integer too wide for its field keeps its leading digits and reads back as the value with its trailing digits dropped |
| AboIO.NegativeIntFieldShape | abo/io.go:138-140 | a zero-padded negative value puts the padding zeros before its '-' sign |
| AboIO.NegativeIntFieldUnreadable | abo/io.go:138-140 | such a field is refused by ReadInt |
| AboIO.BlankFieldIsNotAnInteger | abo/io.go:48-54 | an all-blank integer field is an error, not zero |
| AboIO.StrFieldRoundTrip | abo/io.go:124-126 | a string without edge spaces that fits its field reads back as itself |
| AboIO.StrFieldWindows1250RoundTrip | abo/io.go:128-136 | a name the encoder accepts, whose encoding fits the field and which has no edge spaces, is read back by ReadStrWindows1250 as itself |
| AboIO.DateFieldDigits | abo/io.go:146-148 | WriteTime emits exactly six decimal digits |
| AboIO.DateFieldRoundTrip | abo/io.go:146-148 | WriteTime emits exactly the six DDMMYY bytes, and ReadTime reads them back as the same date |
| Windows1250.CodePoint | abo/io.go:29-33 | every byte decodes to a code point: ASCII bytes to themselves, the others to a code point above ASCII that UTF-8 can spell in at most three bytes; EncodeOfDecode shows no two bytes share one, and ControlBytes pins the five unassigned bytes to their C1 controls |
| Windows1250.Decode | abo/io.go:29-33 | Decoder.Bytes: the UTF-8 of each byte's code point, in order; it never fails |
| Windows1250.NextRune | abo/io.go:129-133 | utf8.DecodeRune on a non-ASCII lead byte: a rune of two or three bytes that fits in the input, with a code point above ASCII and no surrogate, or nothing |
| Windows1250.Encode | abo/io.go:129-133 | Encoder.String: ASCII bytes pass, other runes are looked up in the table, and invalid UTF-8 or an unknown rune is an error |
| Windows1250.ByteOfCodePoint | abo/io.go:129-133 | the encoder's table finds every byte of the upper half, the five C1 control bytes included, again from its code point |
| Windows1250.CodePointOfByteOf | abo/io.go:129-133 | the encoder's table names only bytes of the upper half, each of which decodes to the code point that named it |
| Windows1250.NextRuneOfUtf8Two | abo/io.go:129-133 | DecodeRune reads back a two-byte code point that Utf8 wrote |
| Windows1250.NextRuneOfUtf8Three | abo/io.go:129-133 | DecodeRune reads back a three-byte code point that Utf8 wrote |
| Windows1250.NextRuneOfUtf8 | abo/io.go:129-133 | DecodeRune reads back the code point that Utf8 wrote, with exactly its length |
| Windows1250.Utf8OfNextRune | abo/io.go:129-133 | a rune DecodeRune accepts is spelt exactly as Utf8 spells its code point |
| Windows1250.EncodeOfDecode | abo/io.go:24-36 | every byte string, decoded, encodes back to itself: the decoder loses nothing |
| Windows1250.DecodeOfEncodeRune | abo/io.go:128-136 | a rune the encoder accepts at the head of the text becomes one byte that decodes back to that rune's UTF-8 |
| Windows1250.DecodeOfEncode | abo/io.go:128-136 | whatever the encoder accepts, the decoder gives back |
| Windows1250.DecodeAppend | abo/io.go:29-33 | decoding distributes over concatenation |
| Windows1250.DecodeAscii | abo/io.go:29-33 | the decoder leaves ASCII text unchanged |
| Windows1250.EncodeAscii | abo/io.go:129-133 | the encoder leaves ASCII text unchanged |
| Windows1250.CzechName | abo/io.go:128-136 | "Novák" encodes to 0x4E 0x6F 0x76 0xE1 0x6B and decodes back |
| Windows1250.EuroSign | abo/io.go:128-136 | the three-byte rune U+20AC is byte 0x80, in both directions |
| Windows1250.ControlBytes | abo/io.go:24-36 | bytes 0x81, 0x83, 0x88, 0x90 and 0x98 decode to U+0081, U+0083, U+0088, U+0090 and U+0098, which encode back to those bytes |
| Windows1250.Refusals | abo/io.go:128-136 | the encoder refuses U+FFFD, which no byte decodes to, a letter outside the code page (U+00F1) and a cut-off rune |
| AboCurrency.String | abo/currency/currency.go:195-198 | Currency.String: the name in the table, or the empty string (the zero value a failed map lookup gives) for a code without one; TableShape states that every name has three characters |
| AboCurrency.ToUpper | abo/currency/currency.go:387 | upper-casing keeps the length and maps each character on its own |
| AboCurrency.ToUpperIdempotent | abo/currency/currency.go:387 | upper-casing twice is upper-casing once, and leaves no lower-case letter |
| AboCurrency.ToUpperOfNoLower | abo/currency/currency.go:387 | a string without lower-case letters is left unchanged |
| AboCurrency.ToUpperOfToLower | abo/currency/currency.go:387 | upper-casing undoes lower-casing on such a string |
| AboCurrency.TableShape | abo/currency/currency.go:12-193 | every name in the table has three characters and no lower-case letter, and the names identify their codes |
| AboCurrency.NotInTableBeyond999 | abo/currency/currency.go:12-193 | no code from 1000 up has a name |
| AboCurrency.NamesDistinct | abo/currency/currency.go:12-193 | no two codes in the table share a name |
| AboCurrency.TableShape000 | abo/currency/currency.go:13-24 | the table names of codes 0 to 67 have three characters and no lower-case letter, and identify their codes |
| AboCurrency.TableShape068 | abo/currency/currency.go:25-29 | the table names of codes 68 to 99 have three characters and no lower-case letter, and identify their codes |
| AboCurrency.TableShape100 | abo/currency/currency.go:30-41 | the table names of codes 100 to 190 have three characters and no lower-case letter, and identify their codes |
| AboCurrency.TableShape191 | abo/currency/currency.go:42-43 | the table names of codes 191 to 199 have three characters and no lower-case letter, and identify their codes |
| AboCurrency.TableShape200 | abo/currency/currency.go:44-54 | the table names of codes 200 to 299 have three characters and no lower-case letter, and identify their codes |
| AboCurrency.TableShape300 | abo/currency/currency.go:55-66 | the table names of codes 300 to 375 have three characters and no lower-case letter, and identify their codes |
| AboCurrency.TableShape376 | abo/currency/currency.go:67-70 | the table names of codes 376 to 399 have three characters and no lower-case letter, and identify their codes |
| AboCurrency.TableShape400 | abo/currency/currency.go:71-82 | the table names of codes 400 to 445 have three characters and no lower-case letter, and identify their codes |
| AboCurrency.TableShape446 | abo/currency/currency.go:83-91 | the table names of codes 446 to 499 have three characters and no lower-case letter, and identify their codes |
| AboCurrency.TableShape500 | abo/currency/currency.go:92-103 | the table names of codes 500 to 589 have three characters and no lower-case letter, and identify their codes |
| AboCurrency.TableShape590 | abo/currency/currency.go:104-105 | the table names of codes 590 to 599 have three characters and no lower-case letter, and identify their codes |
| AboCurrency.TableShape600 | abo/currency/currency.go:106-116 | the table names of codes 600 to 699 have three characters and no lower-case letter, and identify their codes |
| AboCurrency.TableShape700 | abo/currency/currency.go:117-128 | the table names of codes 700 to 783 have three characters and no lower-case letter, and identify their codes |
| AboCurrency.TableShape784 | abo/currency/currency.go:129-130 | the table names of codes 784 to 799 have three characters and no lower-case letter, and identify their codes |
| AboCurrency.TableShape800 | abo/currency/currency.go:131-140 | the table names of codes 800 to 899 have three characters and no lower-case letter, and identify their codes |
| AboCurrency.TableShape900 | abo/currency/currency.go:141-152 | the table names of codes 900 to 946 have three characters and no lower-case letter, and identify their codes |
| AboCurrency.TableShape947 | abo/currency/currency.go:153-155 | the table names of codes 947 to 949 have three characters and no lower-case letter, and identify their codes |
| AboCurrency.TableShape950 | abo/currency/currency.go:156-167 | the table names of codes 950 to 962 have three characters and no lower-case letter, and identify their codes |
| AboCurrency.TableShape963 | abo/currency/currency.go:168-179 | the table names of codes 963 to 975 have three characters and no lower-case letter, and identify their codes |
| AboCurrency.TableShape976 | abo/currency/currency.go:180-191 | the table names of codes 976 to 998 have three characters and no lower-case letter, and identify their codes |
| AboCurrency.TableShape999 | abo/currency/currency.go:192 | the table name of code 999 has three characters and no lower-case letter, and identifies the code |
| AboCurrency.ConstantNames000 | abo/currency/currency.go:202-207 | Unknown is named "---" and ALL, DZD, ARS, AUD, BSD each carry their own name in the table |
| AboCurrency.ConstantNames048 | abo/currency/currency.go:208-213 | the constants BHD, BDT, AMD, BBD, BMD, BTN: each one's table name is its own identifier |
| AboCurrency.ConstantNames068 | abo/currency/currency.go:214-218 | the constants BOB, BWP, BZD, SBD, BND: each one's table name is its own identifier |
| AboCurrency.ConstantNames104 | abo/currency/currency.go:219-224 | the constants MMK, BIF, KHR, CAD, CVE, KYD: each one's table name is its own identifier |
| AboCurrency.ConstantNames144 | abo/currency/currency.go:225-230 | the constants LKR, CLP, CNY, COP, KMF, CRC: each one's table name is its own identifier |
| AboCurrency.ConstantNames191 | abo/currency/currency.go:231-232 | the constants HRK, CUP: each one's table name is its own identifier |
| AboCurrency.ConstantNames203 | abo/currency/currency.go:233-238 | the constants CZK, DKK, DOP, SVC, ETB, ERN: each one's table name is its own identifier |
| AboCurrency.ConstantNames238 | abo/currency/currency.go:239-243 | the constants FKP, FJD, DJF, GMD, GIP: each one's table name is its own identifier |
| AboCurrency.ConstantNames320 | abo/currency/currency.go:244-249 | the constants GTQ, GNF, GYD, HTG, HNL, HKD: each one's table name is its own identifier |
| AboCurrency.ConstantNames348 | abo/currency/currency.go:250-255 | the constants HUF, ISK, INR, IDR, IRR, IQD: each one's table name is its own identifier |
| AboCurrency.ConstantNames376 | abo/currency/currency.go:256-259 | the constants ILS, JMD, JPY, KZT: each one's table name is its own identifier |
| AboCurrency.ConstantNames400 | abo/currency/currency.go:260-265 | the constants JOD, KES, KPW, KRW, KWD, KGS: each one's table name is its own identifier |
| AboCurrency.ConstantNames418 | abo/currency/currency.go:266-271 | the constants LAK, LBP, LSL, LRD, LYD, LTL: each one's table name is its own identifier |
| AboCurrency.ConstantNames446 | abo/currency/currency.go:272-277 | the constants MOP, MWK, MYR, MVR, MRO, MUR: each one's table name is its own identifier |
| AboCurrency.ConstantNames484 | abo/currency/currency.go:278-280 | the constants MXN, MNT, MDL: each one's table name is its own identifier |
| AboCurrency.ConstantNames504 | abo/currency/currency.go:281-286 | the constants MAD, OMR, NAD, NPR, ANG, AWG: each one's table name is its own identifier |
| AboCurrency.ConstantNames548 | abo/currency/currency.go:287-292 | the constants VUV, NZD, NIO, NGN, NOK, PKR: each one's table name is its own identifier |
| AboCurrency.ConstantNames590 | abo/currency/currency.go:293-294 | the constants PAB, PGK: each one's table name is its own identifier |
| AboCurrency.ConstantNames600 | abo/currency/currency.go:295-300 | the constants PYG, PEN, PHP, QAR, RUB, RWF: each one's table name is its own identifier |
| AboCurrency.ConstantNames654 | abo/currency/currency.go:301-305 | the constants SHP, STD, SAR, SCR, SLL: each one's table name is its own identifier |
| AboCurrency.ConstantNames702 | abo/currency/currency.go:306-311 | the constants SGD, VND, SOS, ZAR, SSP, SZL: each one's table name is its own identifier |
| AboCurrency.ConstantNames752 | abo/currency/currency.go:312-317 | the constants SEK, CHF, SYP, THB, TOP, TTD: each one's table name is its own identifier |
| AboCurrency.ConstantNames784 | abo/currency/currency.go:318-319 | the constants AED, TND: each one's table name is its own identifier |
| AboCurrency.ConstantNames800 | abo/currency/currency.go:320-325 | the constants UGX, MKD, EGP, GBP, TZS, USD: each one's table name is its own identifier |
| AboCurrency.ConstantNames858 | abo/currency/currency.go:326-329 | the constants UYU, UZS, WST, YER: each one's table name is its own identifier |
| AboCurrency.ConstantNames901 | abo/currency/currency.go:330-335 | the constants TWD, CUC, ZWL, TMT, GHS, VEF: each one's table name is its own identifier |
| AboCurrency.ConstantNames938 | abo/currency/currency.go:336-341 | the constants SDG, UYI, RSD, MZN, AZN, RON: each one's table name is its own identifier |
| AboCurrency.ConstantNames947 | abo/currency/currency.go:342-344 | the constants CHE, CHW, TRY: each one's table name is its own identifier |
| AboCurrency.ConstantNames950 | abo/currency/currency.go:345-350 | the constants XAF, XCD, XOF, XPF, XBA, XBB: each one's table name is its own identifier |
| AboCurrency.ConstantNames957 | abo/currency/currency.go:351-356 | the constants XBC, XBD, XAU, XDR, XAG, XPT: each one's table name is its own identifier |
| AboCurrency.ConstantNames963 | abo/currency/currency.go:357-362 | the constants XTS, XPD, XUA, ZMW, SRD, MGA: each one's table name is its own identifier |
| AboCurrency.ConstantNames970 | abo/currency/currency.go:363-368 | the constants COU, AFN, TJS, AOA, BYR, BGN: each one's table name is its own identifier |
| AboCurrency.ConstantNames976 | abo/currency/currency.go:369-374 | the constants CDF, BAM, EUR, MXV, UAH, GEL: each one's table name is its own identifier |
| AboCurrency.ConstantNames984 | abo/currency/currency.go:375-380 | the constants BOV, PLN, BRL, CLF, XSU, USN: each one's table name is its own identifier |
| AboCurrency.ConstantNames999 | abo/currency/currency.go:381 | the constant XXX: its table name is its own identifier |
| AboCurrency.Find | abo/currency/currency.go:389-393 | the scan for a name: a code found has that name; when none is found, no code in the range scanned has it |
| AboCurrency.FromString | abo/currency/currency.go:386-396 | the result is a code whose name is the upper-cased argument, or Unknown when no name in the table matches it |
| AboCurrency.FromStringOfString | abo/currency/currency.go:386-396 | looking up a code's own name gives back the code |
| AboCurrency.FromStringOfLower | abo/currency/currency.go:386-396 | looking up a code's name in lower case gives back the code too |
| AboCurrency.FromStringIgnoresCase | abo/currency/currency.go:386-396 | upper-casing the argument first does not change the result |
| AboOrder.Item.Write | abo/order.go:46-131 | the sink grows by exactly the item line |
| AboOrder.Item.WriteHead | abo/order.go:49-98 | the fixed columns: account prefix, '-', account number, amount, VS, bank code and KS, with their separators |
| AboOrder.Item.WriteSs | abo/order.go:100-110 | the SS column and a separator, written only when SS is not 0 |
| AboOrder.Item.WriteMessage | abo/order.go:112-123 | "AV:" and at most 140 message bytes, written only when the message is not empty |
| AboOrder.ItemHeadLength | abo/order.go:49-98 | the fixed part of an item line is 54 bytes |
| AboOrder.MessagePartShape | abo/order.go:112-123 | the message part is nothing for an empty message, and otherwise "AV:" followed by the first min(len, 140) message bytes |
| AboOrder.ItemAccountColumns | abo/order.go:49-58 | columns 0-5 hold the prefix, 6 the '-', 7-16 the account number, 17 a space |
| AboOrder.ItemAmountColumns | abo/order.go:65-83 | columns 18-32 hold the amount, 33 a space, 34-43 the VS, 44 a space |
| AboOrder.ItemBankColumns | abo/order.go:85-98 | columns 45-48 hold the bank code, 49-52 the KS, 53 a space |
| AboOrder.ItemLineHead | abo/order.go:46-131 | an item line starts with its 54-byte head and ends with a line end |
| AboOrder.ItemLineSs | abo/order.go:100-110 | a non-zero SS sits in columns 54-63, followed by a space |
| AboOrder.ItemLineMessage | abo/order.go:112-128 | the line has "AV:" and the first min(len, 140) message bytes after the head and optional SS exactly when the message is not empty, and nothing else before its line end |
| AboOrder.ItemLineLayout | abo/order.go:46-131 | the whole item line: head, then SS iff it is not 0, then the message iff it is not empty, then one line end |
| AboOrder.ItemLineFieldReadBack | abo/order.go:49-98 | a head field written within its width reads back, from the whole line, as its value |
| AboOrder.ItemLine | abo/order.go:46-131 | the bytes Item.Write emits: at least the 54-byte head and a line end, and ending with that line end |
| AboOrder.ItemHeadReadBack | abo/order.go:49-98 | the six integer fields of the head, each written within its width, read back as their values |
| AboOrder.ItemLineSsReadBack | abo/order.go:100-110 | a non-zero SS within its width reads back from columns 54-63 |
| AboOrder.ItemLineReadBack | abo/order.go:46-131 | every integer field of an item line, written within its width, reads back as its value; SS only when it is not 0, since a zero SS is not written (AddItemSimple) |
| AboOrder.IntFieldHasNoLineEnd | abo/io.go:138-140 | an integer field never holds a line end |
| AboOrder.ItemHeadHasNoLineEnd | abo/order.go:49-98 | the head of an item line holds no line end |
| AboOrder.ItemLineIsOneLine | abo/order.go:46-131 | an item line is exactly one line when its message holds no line end |
| AboOrder.SumAmountsConcat | abo/order.go:159-162 | the running total of two runs of items is the sum of their totals |
| AboOrder.GroupBytes | abo/order.go:134-200 | the bytes Group.Write emits: at least the 42-byte header and the 4-byte closing line, ending with a line end |
| AboOrder.GroupHeadLength | abo/order.go:137-180 | the group header line is 42 bytes |
| AboOrder.GroupHeadAccountColumns | abo/order.go:137-156 | "2 ", then the payer prefix, '-', the payer account number and a space |
| AboOrder.GroupHeadTotalColumns | abo/order.go:158-180 | then the total in 14 columns, a space, the due date and the line end |
| AboOrder.GroupStartsWithHead | abo/order.go:134-180 | a group's bytes start with its header line |
| AboOrder.GroupLayout | abo/order.go:134-200 | a group is its header line, the item lines in insertion order, and "3 +" with a line end |
| AboOrder.GroupHeadReadBack | abo/order.go:158-175 | the total in the header reads back as the sum of the item amounts, and the date as the due date |
| AboOrder.GroupHeadIsOneLine | abo/order.go:137-180 | the group header line holds exactly one line end |
| AboOrder.GroupLineCount | abo/order.go:134-200 | a group is exactly items + 2 lines when no message holds a line end |
| AboOrder.ItemsBytesCount | abo/order.go:182-187 | the item lines hold one line end per item when no message holds one |
| AboOrder.Group.constructor | abo/order.go:345-349 | a new group with the payer account and due date given and no items |
| AboOrder.Group.AddItem | abo/order.go:203-218 | an item with exactly the given fields is appended, nothing else changes, and the total grows by its amount |
| AboOrder.Group.AddItemSimple | abo/order.go:222-224 | AddItem with KS and SS both 0 |
| AboOrder.Group.TotalAmount | abo/order.go:158-162 | the loop adds up the amounts of all items, in order |
| AboOrder.Group.WriteItems | abo/order.go:182-187 | the sink grows by the item lines, in insertion order |
| AboOrder.Group.Write | abo/order.go:134-200 | the sink grows by exactly the group's bytes, whose header carries the total of the items |
| AboOrder.HeaderLineLength | abo/order.go:283-326 | the UHL1 line is 59 bytes |
| AboOrder.HeaderLineColumns | abo/order.go:283-326 | "UHL1", the creation date, the client name in 20 columns, the account in 10, then "000", "999", "000000", "000000" and a line end |
| AboOrder.AccountingHeadColumns | abo/order.go:229-257 | the accounting line is "1 1501 000000 ", the client's bank code in four columns and a line end |
| AboOrder.AccountingLayout | abo/order.go:226-277 | the accounting part is its opening line, the groups in insertion order and "5 +" with a line end |
| AboOrder.OrderBytes | abo/order.go:280-329 | the whole order file, or the client-name error; OrderLayout states its shape |
| AboOrder.OrderLayout | abo/order.go:280-329 | the order fails, with the client-name error, exactly when the Windows-1250 encoder refuses the client name; otherwise it is the UHL1 line with the encoded name, the accounting line, the groups in order and the closing line |
| AboOrder.HeaderNameReadBack | abo/order.go:294-296 | the client name in the UHL1 line reads back through ReadStrWindows1250 when its encoding fits the 20 columns and it has no edge spaces |
| AboOrder.AsciiClientName | abo/order.go:294-296 | an ASCII client name is written as it is |
| AboOrder.Order.constructor | abo/order.go:34-43 | an order with the client and creation date given and no groups |
| AboOrder.Order.AddGroup | abo/order.go:344-354 | a new, empty group for the given payer and due date is appended and returned, and nothing else changes |
| AboOrder.Order.WriteGroups | abo/order.go:259-264 | the sink grows by the groups' bytes, in insertion order |
| AboOrder.Order.WriteAccountingHead | abo/order.go:229-257 | the sink grows by the accounting line |
| AboOrder.Order.WriteAccounting | abo/order.go:226-277 | the sink grows by the accounting line, every group and the closing line |
| AboOrder.Order.WriteHeader | abo/order.go:283-326 | the UHL1 line with the encoded client name; a name the encoder refuses is an error after "UHL1" and the date are already written |
| AboOrder.Order.Write | abo/order.go:280-329 | the sink grows by exactly the order's bytes, or by "UHL1" and the date along with the client-name error |
| AboStatement.FieldAt | abo/statement.go:55-59 | a field is read exactly when its bytes are all there and decode; it then yields the decoded value and the offset after it; a failure is reported under the field's name |
| AboStatement.TagAt | abo/statement.go:43-53 | the trimmed three-byte record type; end of input exactly when no byte is left |
| AboStatement.BalanceAt | abo/statement.go:208-221 | a 14-byte magnitude followed by a sign byte: the value is negated exactly when that byte is '-' |
| AboStatement.AccountsAt | abo/statement.go:55-69 | the owner account, the counterparty prefix and number, in 16, 6 and 10 columns, each one decoded |
| AboStatement.AmountsAt | abo/statement.go:71-92 | the id, the amount, the type and the VS, in 13, 12, 1 and 10 columns |
| AboStatement.CodesAt | abo/statement.go:94-112 | two bytes skipped unchecked, then the bank code, KS and SS in 4, 4 and 10 columns |
| AboStatement.ToCurrency | abo/statement.go:129 | the currency is the integer read modulo 2^16, as Go's uint16 conversion gives |
| AboStatement.NameAt | abo/statement.go:114-120 | six bytes skipped unchecked, then the 20-byte counterparty name, transcoded and trimmed |
| AboStatement.DueAt | abo/statement.go:122-135 | one byte skipped, the currency code cut to 16 bits, then the due date |
| AboStatement.BodyAt | abo/statement.go:55-135 | a successful body spans exactly bytes 4-128 of the record, and every failure is reported under a field's name |
| AboStatement.ParseTransaction | abo/statement.go:39-140 | no more transactions exactly at the end of the input; a record read is at least 128 bytes and the cursor then skips two more |
| AboStatement.TransactionColumns | abo/statement.go:39-140 | a transaction read is what its columns say, column by column |
| AboStatement.TransactionOfColumns | abo/statement.go:39-140 | conversely, any 128 bytes whose columns decode are read as that transaction, whatever the skipped bytes hold |
| AboStatement.WrongTransactionType | abo/statement.go:51-53 | a record type other than "075" is refused with the type read |
| AboStatement.ParseTransactions | abo/statement.go:159-174 | readTransactions from an offset: the records in input order until the input is exhausted, or the first failing record's error; TransactionsHead, TransactionAt and TransactionsEnd state its shape |
| AboStatement.TransactionsHideSentinel | abo/statement.go:165-169 | the end-of-records sentinel never escapes as the list's error: it ends the list instead |
| AboStatement.TransactionsHead | abo/statement.go:159-174 | the list is empty exactly at the end of the input; otherwise it is the record at the cursor followed by the list after it |
| AboStatement.TransactionAt | abo/statement.go:159-174 | record i of the list starts 130 * i bytes in, and is read as the i-th transaction |
| AboStatement.TransactionsEnd | abo/statement.go:159-174 | the records tile the input: the last one ends it, its two line-end bytes possibly missing; this rests on the model-only ShortRead, see Left out |
| AboStatement.IdentityAt | abo/statement.go:190-206 | the account number, the account name and the start date, in 16, 20 and 6 columns |
| AboStatement.BalancesAt | abo/statement.go:208-236 | the opening and closing balances, each with its own sign byte |
| AboStatement.SumsAt | abo/statement.go:238-248 | the expense sum, one skipped byte and the income sum, each without a sign |
| AboStatement.ClosingAt | abo/statement.go:248-260 | one skipped byte, the statement number in three columns and the end date |
| AboStatement.ParseHeader | abo/statement.go:177-262 | a header read spans at least 114 bytes and the cursor then skips sixteen more |
| AboStatement.HeaderColumnsOfParse | abo/statement.go:177-262 | a header read is what its columns say, column by column |
| AboStatement.ParseOfHeaderColumns | abo/statement.go:177-262 | conversely, any 114 bytes whose columns decode are read as that header |
| AboStatement.ParseStatement | abo/statement.go:177-265 | Statement.Read from an offset: the header, then the transactions up to the end of the input, or the first error; Statement.Read and FromReader are proved against it |
| AboStatement.WrongHeaderType | abo/statement.go:186-188 | a record type other than "074" is refused with the type read |
| AboStatement.ReadAccounts | abo/statement.go:55-69 | the reader agrees with AccountsAt: the same values or the same error, and the cursor after the part |
| AboStatement.ReadAmounts | abo/statement.go:71-92 | the reader agrees with AmountsAt |
| AboStatement.ReadCodes | abo/statement.go:94-112 | the reader agrees with CodesAt |
| AboStatement.ReadName | abo/statement.go:114-120 | the reader agrees with NameAt |
| AboStatement.ReadDue | abo/statement.go:122-135 | the reader agrees with DueAt |
| AboStatement.ReadBody | abo/statement.go:55-135 | the reader agrees with BodyAt |
| AboStatement.Transaction.constructor | abo/statement.go:163-164 | a new transaction with every field at its zero value |
| AboStatement.Transaction.Read | abo/statement.go:39-140 | the error is the one ParseTransaction reports; on success the fields hold the transaction it reads and the cursor is past the record |
| AboStatement.ReadIdentity | abo/statement.go:190-206 | the reader agrees with IdentityAt |
| AboStatement.ReadBalance | abo/statement.go:208-221 | the reader agrees with BalanceAt |
| AboStatement.ReadBalances | abo/statement.go:208-236 | the reader agrees with BalancesAt |
| AboStatement.ReadSums | abo/statement.go:238-248 | the reader agrees with SumsAt |
| AboStatement.ReadClosing | abo/statement.go:248-260 | the reader agrees with ClosingAt |
| AboStatement.ReadHeader | abo/statement.go:181-262 | the reader agrees with ParseHeader |
| AboStatement.ReadNext | abo/statement.go:163-172 | one pass of the loop: a record read moves the cursor forward and extends the list read so far; no more transactions means the list is complete; any other error is the outcome of the whole list |
| AboStatement.ReadAll | abo/statement.go:159-174 | the loop reads exactly the list ParseTransactions describes, or stops with its error |
| AboStatement.Statement.constructor | abo/statement.go:292 | a new statement with the zero Info and no transactions |
| AboStatement.Statement.ReadTransactions | abo/statement.go:159-174 | the error is ParseTransactions' error; on success the transactions are that list and the whole input is consumed; Info is untouched |
| AboStatement.Statement.Read | abo/statement.go:177-265 | the error is ParseStatement's error; on success Info is the header and the transactions are the records after it |
| AboStatement.FromReader | abo/statement.go:284-299 | no statement and the error, or the statement ParseStatement describes |

## Left out

- Floating point: amounts are integers in minor units. The writer's `int(amount*100)` and the reader's `/ 100` become changes of unit. Group totals are exact integer sums, not the `float64` sums of `order.go:159-162`, so float rounding in a total is not modelled.
- 64-bit integer overflow in `strconv.Atoi` and `strconv.Itoa` is not modelled: integers are unbounded.
- AboIO.Reader.ReadStrWindows1250: the decoded name is trimmed of ASCII white space only. Go's `TrimSpace` also drops a no-break space (byte 0xA0, decoded to U+00A0) at either edge, and the model keeps it. No other character of the code page is Unicode white space. AboIO.DecodeStrWindows1250 has the same gap.
- The charmap encoder's error is a tag (`Encoding`), not Go's `RepertoireError` value. Windows1250.NextRune reports a valid four-byte rune as it reports invalid UTF-8. The encoder refuses both either way, because every code point of the table is below U+10000.
- `time.Time` is modelled as a day, a month and a two-digit year; the signed one-digit years that `time.Parse` accepts are modelled too:
  - The century pivot is left out.
  - The time of day and the time zone are left out.
  - The 1969-2068 window of the pivot is why a year counts as a leap year when `yy % 4 == 0`.
- `strings.TrimSpace` and `strings.ToUpper` are modelled on ASCII white space and ASCII letters only, not on Unicode.
- AboIO.Window, AboIO.Reader.Read: a read that finds fewer bytes left than the field width is reported as a model-only `ShortRead` error. Every reader built on Window inherits this: ReadStr, ReadInt, ReadTime, ReadStrWindows1250 and AboStatement.TagAt. In Go, a `bytes.Reader` returns the short count with no error; the codec then decodes a buffer that still holds bytes from an earlier field. Readers that return short counts in mid-stream are not modelled.
- AboStatement.TransactionsEnd: the tiling rests on the model-only `ShortRead`. With Go's `bytes.Reader`, a final record that is cut short inside a field is read with the stale bytes left in the buffer. It may then be accepted, so the list can claim a record the input does not hold in full. The model does not state that outcome.
- Underlying write failures of the sink are not modelled, so no `Writer` method fails except on transcoding. The error-wrapping texts of `Order.Write` in `order.go:284-326` are not modelled either.
- Errors are tags (`Error`) with the field name as context, not Go's formatted messages.
- `Order.WriteToFile` (`order.go:331-340`) is left out: it opens a file and closes it.
- Closing the input in `FromReader` is left out: it is I/O.
- The `String` presentations of `Transaction` and `Statement` (`statement.go:32-36`, `statement.go:267-281`) are left out: they are formatted text for display only.
- `Item`s are values, not shared pointers: a caller that changes an `*Item` after `AddItem` has no counterpart in the model.
- `FromString` scans codes in increasing order, where Go ranges over a map in random order. The model gains no determinism from this: the table's names are proved pairwise distinct (`AboCurrency.NamesDistinct`), so every order finds the same code.
- AboStatement.Transaction.Read: on error, the fields assigned before the failing one are not stated. The model fills the fields only after the whole record has been read; `readTransactions` then discards that transaction.
- AboStatement.Statement.Read: on error, the `Info` fields assigned before the failing one are not stated. `FromReader` returns no statement in that case.
- AboStatement.Statement.ReadTransactions: on error, the partial list of transactions already read is kept but not stated. The Go code leaves it in place too.
- `newAboReader` and `newWriter` reusing an existing wrapper are left out: the model has one reader or writer per stream.
