/**
 * ISO 4217 currencies as used by the ABO codec: a currency is a Go
 * uint16 numeric code, and a fixed table maps each known code to its
 * three-letter alphabetic code. Lookup by name is case-insensitive.
 */
module AboCurrency {
  import opened Wrappers

  /** A currency identifier is a 16-bit unsigned integer. */
  newtype Currency = x: int | 0 <= x < 0x1_0000

  /** The named currency constants; each one's table entry is its own name, except Unknown's, which is "---". */
  const Unknown: Currency := 0
  const ALL: Currency := 8
  const DZD: Currency := 12
  const ARS: Currency := 32
  const AUD: Currency := 36
  const BSD: Currency := 44
  const BHD: Currency := 48
  const BDT: Currency := 50
  const AMD: Currency := 51
  const BBD: Currency := 52
  const BMD: Currency := 60
  const BTN: Currency := 64
  const BOB: Currency := 68
  const BWP: Currency := 72
  const BZD: Currency := 84
  const SBD: Currency := 90
  const BND: Currency := 96
  const MMK: Currency := 104
  const BIF: Currency := 108
  const KHR: Currency := 116
  const CAD: Currency := 124
  const CVE: Currency := 132
  const KYD: Currency := 136
  const LKR: Currency := 144
  const CLP: Currency := 152
  const CNY: Currency := 156
  const COP: Currency := 170
  const KMF: Currency := 174
  const CRC: Currency := 188
  const HRK: Currency := 191
  const CUP: Currency := 192
  const CZK: Currency := 203
  const DKK: Currency := 208
  const DOP: Currency := 214
  const SVC: Currency := 222
  const ETB: Currency := 230
  const ERN: Currency := 232
  const FKP: Currency := 238
  const FJD: Currency := 242
  const DJF: Currency := 262
  const GMD: Currency := 270
  const GIP: Currency := 292
  const GTQ: Currency := 320
  const GNF: Currency := 324
  const GYD: Currency := 328
  const HTG: Currency := 332
  const HNL: Currency := 340
  const HKD: Currency := 344
  const HUF: Currency := 348
  const ISK: Currency := 352
  const INR: Currency := 356
  const IDR: Currency := 360
  const IRR: Currency := 364
  const IQD: Currency := 368
  const ILS: Currency := 376
  const JMD: Currency := 388
  const JPY: Currency := 392
  const KZT: Currency := 398
  const JOD: Currency := 400
  const KES: Currency := 404
  const KPW: Currency := 408
  const KRW: Currency := 410
  const KWD: Currency := 414
  const KGS: Currency := 417
  const LAK: Currency := 418
  const LBP: Currency := 422
  const LSL: Currency := 426
  const LRD: Currency := 430
  const LYD: Currency := 434
  const LTL: Currency := 440
  const MOP: Currency := 446
  const MWK: Currency := 454
  const MYR: Currency := 458
  const MVR: Currency := 462
  const MRO: Currency := 478
  const MUR: Currency := 480
  const MXN: Currency := 484
  const MNT: Currency := 496
  const MDL: Currency := 498
  const MAD: Currency := 504
  const OMR: Currency := 512
  const NAD: Currency := 516
  const NPR: Currency := 524
  const ANG: Currency := 532
  const AWG: Currency := 533
  const VUV: Currency := 548
  const NZD: Currency := 554
  const NIO: Currency := 558
  const NGN: Currency := 566
  const NOK: Currency := 578
  const PKR: Currency := 586
  const PAB: Currency := 590
  const PGK: Currency := 598
  const PYG: Currency := 600
  const PEN: Currency := 604
  const PHP: Currency := 608
  const QAR: Currency := 634
  const RUB: Currency := 643
  const RWF: Currency := 646
  const SHP: Currency := 654
  const STD: Currency := 678
  const SAR: Currency := 682
  const SCR: Currency := 690
  const SLL: Currency := 694
  const SGD: Currency := 702
  const VND: Currency := 704
  const SOS: Currency := 706
  const ZAR: Currency := 710
  const SSP: Currency := 728
  const SZL: Currency := 748
  const SEK: Currency := 752
  const CHF: Currency := 756
  const SYP: Currency := 760
  const THB: Currency := 764
  const TOP: Currency := 776
  const TTD: Currency := 780
  const AED: Currency := 784
  const TND: Currency := 788
  const UGX: Currency := 800
  const MKD: Currency := 807
  const EGP: Currency := 818
  const GBP: Currency := 826
  const TZS: Currency := 834
  const USD: Currency := 840
  const UYU: Currency := 858
  const UZS: Currency := 860
  const WST: Currency := 882
  const YER: Currency := 886
  const TWD: Currency := 901
  const CUC: Currency := 931
  const ZWL: Currency := 932
  const TMT: Currency := 934
  const GHS: Currency := 936
  const VEF: Currency := 937
  const SDG: Currency := 938
  const UYI: Currency := 940
  const RSD: Currency := 941
  const MZN: Currency := 943
  const AZN: Currency := 944
  const RON: Currency := 946
  const CHE: Currency := 947
  const CHW: Currency := 948
  const TRY: Currency := 949
  const XAF: Currency := 950
  const XCD: Currency := 951
  const XOF: Currency := 952
  const XPF: Currency := 953
  const XBA: Currency := 955
  const XBB: Currency := 956
  const XBC: Currency := 957
  const XBD: Currency := 958
  const XAU: Currency := 959
  const XDR: Currency := 960
  const XAG: Currency := 961
  const XPT: Currency := 962
  const XTS: Currency := 963
  const XPD: Currency := 964
  const XUA: Currency := 965
  const ZMW: Currency := 967
  const SRD: Currency := 968
  const MGA: Currency := 969
  const COU: Currency := 970
  const AFN: Currency := 971
  const TJS: Currency := 972
  const AOA: Currency := 973
  const BYR: Currency := 974
  const BGN: Currency := 975
  const CDF: Currency := 976
  const BAM: Currency := 977
  const EUR: Currency := 978
  const MXV: Currency := 979
  const UAH: Currency := 980
  const GEL: Currency := 981
  const BOV: Currency := 984
  const PLN: Currency := 985
  const BRL: Currency := 986
  const CLF: Currency := 990
  const XSU: Currency := 994
  const USN: Currency := 997
  const XXX: Currency := 999

  /**
   * The `names` table looked up with Go's map semantics: the alphabetic
   * code of a known currency, and the empty string (the map's zero value)
   * for any other code. The table is split by code range only to keep
   * each lookup small.
   */
  function String(c: Currency): string {
    if c < 100 then Names000(c) else
    if c < 200 then Names100(c) else
    if c < 300 then Names200(c) else
    if c < 400 then Names300(c) else
    if c < 500 then Names400(c) else
    if c < 600 then Names500(c) else
    if c < 700 then Names600(c) else
    if c < 800 then Names700(c) else
    if c < 900 then Names800(c) else
    if c < 950 then Names900(c) else
    Names950(c)
  }

  function Names000(c: Currency): string {
    match c
    case 0 => "---"
    case 8 => "ALL"
    case 12 => "DZD"
    case 32 => "ARS"
    case 36 => "AUD"
    case 44 => "BSD"
    case 48 => "BHD"
    case 50 => "BDT"
    case 51 => "AMD"
    case 52 => "BBD"
    case 60 => "BMD"
    case 64 => "BTN"
    case 68 => "BOB"
    case 72 => "BWP"
    case 84 => "BZD"
    case 90 => "SBD"
    case 96 => "BND"
    case _ => ""
  }

  function Names100(c: Currency): string {
    match c
    case 104 => "MMK"
    case 108 => "BIF"
    case 116 => "KHR"
    case 124 => "CAD"
    case 132 => "CVE"
    case 136 => "KYD"
    case 144 => "LKR"
    case 152 => "CLP"
    case 156 => "CNY"
    case 170 => "COP"
    case 174 => "KMF"
    case 188 => "CRC"
    case 191 => "HRK"
    case 192 => "CUP"
    case _ => ""
  }

  function Names200(c: Currency): string {
    match c
    case 203 => "CZK"
    case 208 => "DKK"
    case 214 => "DOP"
    case 222 => "SVC"
    case 230 => "ETB"
    case 232 => "ERN"
    case 238 => "FKP"
    case 242 => "FJD"
    case 262 => "DJF"
    case 270 => "GMD"
    case 292 => "GIP"
    case _ => ""
  }

  function Names300(c: Currency): string {
    match c
    case 320 => "GTQ"
    case 324 => "GNF"
    case 328 => "GYD"
    case 332 => "HTG"
    case 340 => "HNL"
    case 344 => "HKD"
    case 348 => "HUF"
    case 352 => "ISK"
    case 356 => "INR"
    case 360 => "IDR"
    case 364 => "IRR"
    case 368 => "IQD"
    case 376 => "ILS"
    case 388 => "JMD"
    case 392 => "JPY"
    case 398 => "KZT"
    case _ => ""
  }

  function Names400(c: Currency): string {
    match c
    case 400 => "JOD"
    case 404 => "KES"
    case 408 => "KPW"
    case 410 => "KRW"
    case 414 => "KWD"
    case 417 => "KGS"
    case 418 => "LAK"
    case 422 => "LBP"
    case 426 => "LSL"
    case 430 => "LRD"
    case 434 => "LYD"
    case 440 => "LTL"
    case 446 => "MOP"
    case 454 => "MWK"
    case 458 => "MYR"
    case 462 => "MVR"
    case 478 => "MRO"
    case 480 => "MUR"
    case 484 => "MXN"
    case 496 => "MNT"
    case 498 => "MDL"
    case _ => ""
  }

  function Names500(c: Currency): string {
    match c
    case 504 => "MAD"
    case 512 => "OMR"
    case 516 => "NAD"
    case 524 => "NPR"
    case 532 => "ANG"
    case 533 => "AWG"
    case 548 => "VUV"
    case 554 => "NZD"
    case 558 => "NIO"
    case 566 => "NGN"
    case 578 => "NOK"
    case 586 => "PKR"
    case 590 => "PAB"
    case 598 => "PGK"
    case _ => ""
  }

  function Names600(c: Currency): string {
    match c
    case 600 => "PYG"
    case 604 => "PEN"
    case 608 => "PHP"
    case 634 => "QAR"
    case 643 => "RUB"
    case 646 => "RWF"
    case 654 => "SHP"
    case 678 => "STD"
    case 682 => "SAR"
    case 690 => "SCR"
    case 694 => "SLL"
    case _ => ""
  }

  function Names700(c: Currency): string {
    match c
    case 702 => "SGD"
    case 704 => "VND"
    case 706 => "SOS"
    case 710 => "ZAR"
    case 728 => "SSP"
    case 748 => "SZL"
    case 752 => "SEK"
    case 756 => "CHF"
    case 760 => "SYP"
    case 764 => "THB"
    case 776 => "TOP"
    case 780 => "TTD"
    case 784 => "AED"
    case 788 => "TND"
    case _ => ""
  }

  function Names800(c: Currency): string {
    match c
    case 800 => "UGX"
    case 807 => "MKD"
    case 818 => "EGP"
    case 826 => "GBP"
    case 834 => "TZS"
    case 840 => "USD"
    case 858 => "UYU"
    case 860 => "UZS"
    case 882 => "WST"
    case 886 => "YER"
    case _ => ""
  }

  function Names900(c: Currency): string {
    match c
    case 901 => "TWD"
    case 931 => "CUC"
    case 932 => "ZWL"
    case 934 => "TMT"
    case 936 => "GHS"
    case 937 => "VEF"
    case 938 => "SDG"
    case 940 => "UYI"
    case 941 => "RSD"
    case 943 => "MZN"
    case 944 => "AZN"
    case 946 => "RON"
    case 947 => "CHE"
    case 948 => "CHW"
    case 949 => "TRY"
    case _ => ""
  }

  function Names950(c: Currency): string {
    match c
    case 950 => "XAF"
    case 951 => "XCD"
    case 952 => "XOF"
    case 953 => "XPF"
    case 955 => "XBA"
    case 956 => "XBB"
    case 957 => "XBC"
    case 958 => "XBD"
    case 959 => "XAU"
    case 960 => "XDR"
    case 961 => "XAG"
    case 962 => "XPT"
    case 963 => "XTS"
    case 964 => "XPD"
    case 965 => "XUA"
    case 967 => "ZMW"
    case 968 => "SRD"
    case 969 => "MGA"
    case 970 => "COU"
    case 971 => "AFN"
    case 972 => "TJS"
    case 973 => "AOA"
    case 974 => "BYR"
    case 975 => "BGN"
    case 976 => "CDF"
    case 977 => "BAM"
    case 978 => "EUR"
    case 979 => "MXV"
    case 980 => "UAH"
    case 981 => "GEL"
    case 984 => "BOV"
    case 985 => "PLN"
    case 986 => "BRL"
    case 990 => "CLF"
    case 994 => "XSU"
    case 997 => "USN"
    case 999 => "XXX"
    case _ => ""
  }

  /** The codes present in the table: exactly those with a non-empty name. */
  predicate InTable(c: Currency) {
    String(c) != ""
  }

  /** ASCII upper-casing of one character; every other character is kept. */
  function UpperChar(ch: char): (r: char)
    ensures 'a' <= ch <= 'z' ==> r as int == ch as int - 32
    ensures !('a' <= ch <= 'z') ==> r == ch
    ensures !('a' <= r <= 'z')
  {
    if 'a' <= ch <= 'z' then (ch as int - 32) as char else ch
  }

  /** ASCII lower-casing of one character; every other character is kept. */
  function LowerChar(ch: char): (r: char)
    ensures 'A' <= ch <= 'Z' ==> r as int == ch as int + 32
    ensures !('A' <= ch <= 'Z') ==> r == ch
    ensures !('A' <= r <= 'Z')
  {
    if 'A' <= ch <= 'Z' then (ch as int + 32) as char else ch
  }

  /** strings.ToUpper restricted to ASCII case mapping. */
  function ToUpper(s: string): (r: string)
    ensures |r| == |s|
    ensures forall i :: 0 <= i < |s| ==> r[i] == UpperChar(s[i])
  {
    if s == [] then [] else [UpperChar(s[0])] + ToUpper(s[1..])
  }

  /** strings.ToLower restricted to ASCII case mapping. */
  function ToLower(s: string): (r: string)
    ensures |r| == |s|
    ensures forall i :: 0 <= i < |s| ==> r[i] == LowerChar(s[i])
  {
    if s == [] then [] else [LowerChar(s[0])] + ToLower(s[1..])
  }

  /** A string with no lower-case ASCII letter. */
  predicate NoLower(s: string) {
    forall i :: 0 <= i < |s| ==> !('a' <= s[i] <= 'z')
  }

  lemma ToUpperIdempotent(s: string)
    ensures ToUpper(ToUpper(s)) == ToUpper(s)
    ensures NoLower(ToUpper(s))
  {
  }

  lemma ToUpperOfNoLower(s: string)
    requires NoLower(s)
    ensures ToUpper(s) == s
  {
  }

  /** Upper-casing undoes lower-casing on a string with no lower-case letter. */
  lemma ToUpperOfToLower(s: string)
    requires NoLower(s)
    ensures ToUpper(ToLower(s)) == s
  {
    var t := ToUpper(ToLower(s));
    forall i | 0 <= i < |s|
      ensures t[i] == s[i]
    {
      var ch := s[i];
      if 'A' <= ch <= 'Z' {
        assert ToLower(s)[i] as int == ch as int + 32;
      }
    }
  }

  /** A three-character string packed into one integer, first character most significant. */
  function Key(s: string): int
    requires |s| == 3
  {
    (s[0] as int) * 0x1_0000 + (s[1] as int) * 0x100 + s[2] as int
  }

  /**
   * The table read backwards: the code whose name has the given Key, or -1.
   * A balanced comparison tree over the keys in increasing order (the
   * comment on each leaf is the name it stands for); it exists only to
   * show that the table's names are pairwise distinct.
   */
  ghost function CodeOfKey(k: int): int {
    if k < 5062980 then
      if k < 4479556 then
        if k < 4346692 then
          if k < 4342093 then
            if k < 4279879 then
              if k < 4277838 then
                if k < 4277572 then
                  if k == 2960685 then 0 else -1 // ---
                else
                  if k == 4277572 then 784 else -1 // AED
              else
                if k < 4279372 then
                  if k == 4277838 then 971 else -1 // AFN
                else
                  if k < 4279620 then
                    if k == 4279372 then 8 else -1 // ALL
                  else
                    if k == 4279620 then 51 else -1 // AMD
            else
              if k < 4281668 then
                if k < 4280129 then
                  if k == 4279879 then 532 else -1 // ANG
                else
                  if k < 4280915 then
                    if k == 4280129 then 973 else -1 // AOA
                  else
                    if k == 4280915 then 32 else -1 // ARS
              else
                if k < 4282183 then
                  if k == 4281668 then 36 else -1 // AUD
                else
                  if k < 4282958 then
                    if k == 4282183 then 533 else -1 // AWG
                  else
                    if k == 4282958 then 944 else -1 // AZN
          else
            if k < 4344134 then
              if k < 4342868 then
                if k < 4342340 then
                  if k == 4342093 then 977 else -1 // BAM
                else
                  if k == 4342340 then 52 else -1 // BBD
              else
                if k < 4343630 then
                  if k == 4342868 then 50 else -1 // BDT
                else
                  if k < 4343876 then
                    if k == 4343630 then 975 else -1 // BGN
                  else
                    if k == 4343876 then 48 else -1 // BHD
            else
              if k < 4345666 then
                if k < 4345156 then
                  if k == 4344134 then 108 else -1 // BIF
                else
                  if k < 4345412 then
                    if k == 4345156 then 60 else -1 // BMD
                  else
                    if k == 4345412 then 96 else -1 // BND
              else
                if k < 4345686 then
                  if k == 4345666 then 68 else -1 // BOB
                else
                  if k < 4346444 then
                    if k == 4345686 then 984 else -1 // BOV
                  else
                    if k == 4346444 then 986 else -1 // BRL
        else
          if k < 4410448 then
            if k < 4407620 then
              if k < 4347728 then
                if k < 4346958 then
                  if k == 4346692 then 44 else -1 // BSD
                else
                  if k == 4346958 then 64 else -1 // BTN
              else
                if k < 4348242 then
                  if k == 4347728 then 72 else -1 // BWP
                else
                  if k < 4348484 then
                    if k == 4348242 then 974 else -1 // BYR
                  else
                    if k == 4348484 then 84 else -1 // BZD
            else
              if k < 4409414 then
                if k < 4408390 then
                  if k == 4407620 then 124 else -1 // CAD
                else
                  if k < 4409413 then
                    if k == 4408390 then 976 else -1 // CDF
                  else
                    if k == 4409413 then 947 else -1 // CHE
              else
                if k < 4409431 then
                  if k == 4409414 then 756 else -1 // CHF
                else
                  if k < 4410438 then
                    if k == 4409431 then 948 else -1 // CHW
                  else
                    if k == 4410438 then 990 else -1 // CLF
          else
            if k < 4412752 then
              if k < 4411221 then
                if k < 4410969 then
                  if k == 4410448 then 152 else -1 // CLP
                else
                  if k < 4411216 then
                    if k == 4410969 then 156 else -1 // CNY
                  else
                    if k == 4411216 then 170 else -1 // COP
              else
                if k < 4411971 then
                  if k == 4411221 then 970 else -1 // COU
                else
                  if k < 4412739 then
                    if k == 4411971 then 188 else -1 // CRC
                  else
                    if k == 4412739 then 931 else -1 // CUC
            else
              if k < 4475462 then
                if k < 4412997 then
                  if k == 4412752 then 192 else -1 // CUP
                else
                  if k < 4414027 then
                    if k == 4412997 then 132 else -1 // CVE
                  else
                    if k == 4414027 then 203 else -1 // CZK
              else
                if k < 4475723 then
                  if k == 4475462 then 262 else -1 // DJF
                else
                  if k < 4476752 then
                    if k == 4475723 then 208 else -1 // DKK
                  else
                    if k == 4476752 then 214 else -1 // DOP
      else
        if k < 4804178 then
          if k < 4672836 then
            if k < 4606532 then
              if k < 4543054 then
                if k < 4540240 then
                  if k == 4479556 then 12 else -1 // DZD
                else
                  if k == 4540240 then 818 else -1 // EGP
              else
                if k < 4543554 then
                  if k == 4543054 then 232 else -1 // ERN
                else
                  if k < 4543826 then
                    if k == 4543554 then 230 else -1 // ETB
                  else
                    if k == 4543826 then 978 else -1 // EUR
            else
              if k < 4670796 then
                if k < 4606800 then
                  if k == 4606532 then 242 else -1 // FJD
                else
                  if k < 4670032 then
                    if k == 4606800 then 238 else -1 // FKP
                  else
                    if k == 4670032 then 826 else -1 // GBP
              else
                if k < 4671571 then
                  if k == 4670796 then 981 else -1 // GEL
                else
                  if k < 4671824 then
                    if k == 4671571 then 936 else -1 // GHS
                  else
                    if k == 4671824 then 292 else -1 // GIP
          else
            if k < 4738636 then
              if k < 4674641 then
                if k < 4673094 then
                  if k == 4672836 then 270 else -1 // GMD
                else
                  if k == 4673094 then 324 else -1 // GNF
              else
                if k < 4675908 then
                  if k == 4674641 then 320 else -1 // GTQ
                else
                  if k < 4737860 then
                    if k == 4675908 then 328 else -1 // GYD
                  else
                    if k == 4737860 then 344 else -1 // HKD
            else
              if k < 4740422 then
                if k < 4739659 then
                  if k == 4738636 then 340 else -1 // HNL
                else
                  if k < 4740167 then
                    if k == 4739659 then 191 else -1 // HRK
                  else
                    if k == 4740167 then 332 else -1 // HTG
              else
                if k < 4801618 then
                  if k == 4740422 then 348 else -1 // HUF
                else
                  if k < 4803667 then
                    if k == 4801618 then 360 else -1 // IDR
                  else
                    if k == 4803667 then 376 else -1 // ILS
        else
          if k < 4935767 then
            if k < 4869956 then
              if k < 4805202 then
                if k < 4804932 then
                  if k == 4804178 then 356 else -1 // INR
                else
                  if k == 4804932 then 368 else -1 // IQD
              else
                if k < 4805451 then
                  if k == 4805202 then 364 else -1 // IRR
                else
                  if k < 4869444 then
                    if k == 4805451 then 352 else -1 // ISK
                  else
                    if k == 4869444 then 388 else -1 // JMD
            else
              if k < 4933459 then
                if k < 4870233 then
                  if k == 4869956 then 400 else -1 // JOD
                else
                  if k < 4932947 then
                    if k == 4870233 then 392 else -1 // JPY
                  else
                    if k == 4932947 then 404 else -1 // KES
              else
                if k < 4933714 then
                  if k == 4933459 then 417 else -1 // KGS
                else
                  if k < 4934982 then
                    if k == 4933714 then 116 else -1 // KHR
                  else
                    if k == 4934982 then 174 else -1 // KMF
          else
            if k < 4997712 then
              if k < 4938052 then
                if k < 4936279 then
                  if k == 4935767 then 408 else -1 // KPW
                else
                  if k < 4937540 then
                    if k == 4936279 then 410 else -1 // KRW
                  else
                    if k == 4937540 then 414 else -1 // KWD
              else
                if k < 4938324 then
                  if k == 4938052 then 136 else -1 // KYD
                else
                  if k < 4997451 then
                    if k == 4938324 then 398 else -1 // KZT
                  else
                    if k == 4997451 then 418 else -1 // LAK
            else
              if k < 5002060 then
                if k < 5000018 then
                  if k == 4997712 then 422 else -1 // LBP
                else
                  if k < 5001796 then
                    if k == 5000018 then 144 else -1 // LKR
                  else
                    if k == 5001796 then 430 else -1 // LRD
              else
                if k < 5002316 then
                  if k == 5002060 then 426 else -1 // LSL
                else
                  if k < 5003588 then
                    if k == 5002316 then 440 else -1 // LTL
                  else
                    if k == 5003588 then 434 else -1 // LYD
    else
      if k < 5461060 then
        if k < 5259586 then
          if k < 5068878 then
            if k < 5066324 then
              if k < 5064513 then
                if k < 5063756 then
                  if k == 5062980 then 504 else -1 // MAD
                else
                  if k == 5063756 then 498 else -1 // MDL
              else
                if k < 5065540 then
                  if k == 5064513 then 969 else -1 // MGA
                else
                  if k < 5066059 then
                    if k == 5065540 then 807 else -1 // MKD
                  else
                    if k == 5066059 then 104 else -1 // MMK
            else
              if k < 5068114 then
                if k < 5066576 then
                  if k == 5066324 then 496 else -1 // MNT
                else
                  if k < 5067343 then
                    if k == 5066576 then 446 else -1 // MOP
                  else
                    if k == 5067343 then 478 else -1 // MRO
              else
                if k < 5068370 then
                  if k == 5068114 then 480 else -1 // MUR
                else
                  if k < 5068619 then
                    if k == 5068370 then 462 else -1 // MVR
                  else
                    if k == 5068619 then 454 else -1 // MWK
          else
            if k < 5130062 then
              if k < 5069138 then
                if k < 5068886 then
                  if k == 5068878 then 484 else -1 // MXN
                else
                  if k == 5068886 then 979 else -1 // MXV
              else
                if k < 5069390 then
                  if k == 5069138 then 458 else -1 // MYR
                else
                  if k < 5128516 then
                    if k == 5069390 then 943 else -1 // MZN
                  else
                    if k == 5128516 then 516 else -1 // NAD
            else
              if k < 5132370 then
                if k < 5130575 then
                  if k == 5130062 then 566 else -1 // NGN
                else
                  if k < 5132107 then
                    if k == 5130575 then 558 else -1 // NIO
                  else
                    if k == 5132107 then 578 else -1 // NOK
              else
                if k < 5134916 then
                  if k == 5132370 then 524 else -1 // NPR
                else
                  if k < 5197138 then
                    if k == 5134916 then 554 else -1 // NZD
                  else
                    if k == 5197138 then 512 else -1 // OMR
        else
          if k < 5396294 then
            if k < 5262414 then
              if k < 5261131 then
                if k < 5260622 then
                  if k == 5259586 then 590 else -1 // PAB
                else
                  if k == 5260622 then 604 else -1 // PEN
              else
                if k < 5261392 then
                  if k == 5261131 then 598 else -1 // PGK
                else
                  if k < 5262162 then
                    if k == 5261392 then 608 else -1 // PHP
                  else
                    if k == 5262162 then 586 else -1 // PKR
            else
              if k < 5394254 then
                if k < 5265735 then
                  if k == 5262414 then 985 else -1 // PLN
                else
                  if k < 5325138 then
                    if k == 5265735 then 600 else -1 // PYG
                  else
                    if k == 5325138 then 634 else -1 // QAR
              else
                if k < 5395268 then
                  if k == 5394254 then 946 else -1 // RON
                else
                  if k < 5395778 then
                    if k == 5395268 then 941 else -1 // RSD
                  else
                    if k == 5395778 then 643 else -1 // RUB
          else
            if k < 5457732 then
              if k < 5456722 then
                if k < 5456210 then
                  if k == 5396294 then 646 else -1 // RWF
                else
                  if k < 5456452 then
                    if k == 5456210 then 682 else -1 // SAR
                  else
                    if k == 5456452 then 90 else -1 // SBD
              else
                if k < 5456967 then
                  if k == 5456722 then 690 else -1 // SCR
                else
                  if k < 5457227 then
                    if k == 5456967 then 938 else -1 // SDG
                  else
                    if k == 5457227 then 752 else -1 // SEK
            else
              if k < 5459795 then
                if k < 5458000 then
                  if k == 5457732 then 702 else -1 // SGD
                else
                  if k < 5459020 then
                    if k == 5458000 then 654 else -1 // SHP
                  else
                    if k == 5459020 then 694 else -1 // SLL
              else
                if k < 5460548 then
                  if k == 5459795 then 706 else -1 // SOS
                else
                  if k < 5460816 then
                    if k == 5460548 then 968 else -1 // SRD
                  else
                    if k == 5460816 then 728 else -1 // SSP
      else
        if k < 5657942 then
          if k < 5527364 then
            if k < 5524051 then
              if k < 5462352 then
                if k < 5461571 then
                  if k == 5461060 then 678 else -1 // STD
                else
                  if k == 5461571 then 222 else -1 // SVC
              else
                if k < 5462604 then
                  if k == 5462352 then 760 else -1 // SYP
                else
                  if k < 5523522 then
                    if k == 5462604 then 748 else -1 // SZL
                  else
                    if k == 5523522 then 764 else -1 // THB
            else
              if k < 5525328 then
                if k < 5524820 then
                  if k == 5524051 then 972 else -1 // TJS
                else
                  if k < 5525060 then
                    if k == 5524820 then 934 else -1 // TMT
                  else
                    if k == 5525060 then 788 else -1 // TND
              else
                if k < 5526105 then
                  if k == 5525328 then 776 else -1 // TOP
                else
                  if k < 5526596 then
                    if k == 5526105 then 949 else -1 // TRY
                  else
                    if k == 5526596 then 780 else -1 // TTD
          else
            if k < 5591886 then
              if k < 5587272 then
                if k < 5528147 then
                  if k == 5527364 then 901 else -1 // TWD
                else
                  if k == 5528147 then 834 else -1 // TZS
              else
                if k < 5588824 then
                  if k == 5587272 then 980 else -1 // UAH
                else
                  if k < 5591876 then
                    if k == 5588824 then 800 else -1 // UGX
                  else
                    if k == 5591876 then 840 else -1 // USD
            else
              if k < 5593683 then
                if k < 5593417 then
                  if k == 5591886 then 997 else -1 // USN
                else
                  if k < 5593429 then
                    if k == 5593417 then 940 else -1 // UYI
                  else
                    if k == 5593429 then 858 else -1 // UYU
              else
                if k < 5653830 then
                  if k == 5593683 then 860 else -1 // UZS
                else
                  if k < 5656132 then
                    if k == 5653830 then 937 else -1 // VEF
                  else
                    if k == 5656132 then 704 else -1 // VND
        else
          if k < 5787462 then
            if k < 5784129 then
              if k < 5783878 then
                if k < 5722964 then
                  if k == 5657942 then 548 else -1 // VUV
                else
                  if k == 5722964 then 882 else -1 // WST
              else
                if k < 5783879 then
                  if k == 5783878 then 950 else -1 // XAF
                else
                  if k < 5783893 then
                    if k == 5783879 then 961 else -1 // XAG
                  else
                    if k == 5783893 then 959 else -1 // XAU
            else
              if k < 5784132 then
                if k < 5784130 then
                  if k == 5784129 then 955 else -1 // XBA
                else
                  if k < 5784131 then
                    if k == 5784130 then 956 else -1 // XBB
                  else
                    if k == 5784131 then 957 else -1 // XBC
              else
                if k < 5784388 then
                  if k == 5784132 then 958 else -1 // XBD
                else
                  if k < 5784658 then
                    if k == 5784388 then 951 else -1 // XCD
                  else
                    if k == 5784658 then 960 else -1 // XDR
          else
            if k < 5788993 then
              if k < 5787732 then
                if k < 5787716 then
                  if k == 5787462 then 952 else -1 // XOF
                else
                  if k < 5787718 then
                    if k == 5787716 then 964 else -1 // XPD
                  else
                    if k == 5787718 then 953 else -1 // XPF
              else
                if k < 5788501 then
                  if k == 5787732 then 962 else -1 // XPT
                else
                  if k < 5788755 then
                    if k == 5788501 then 994 else -1 // XSU
                  else
                    if k == 5788755 then 963 else -1 // XTS
            else
              if k < 5914962 then
                if k < 5789784 then
                  if k == 5788993 then 965 else -1 // XUA
                else
                  if k < 5850450 then
                    if k == 5789784 then 999 else -1 // XXX
                  else
                    if k == 5850450 then 886 else -1 // YER
              else
                if k < 5918039 then
                  if k == 5914962 then 710 else -1 // ZAR
                else
                  if k < 5920588 then
                    if k == 5918039 then 967 else -1 // ZMW
                  else
                    if k == 5920588 then 932 else -1 // ZWL
  }

  lemma TableShape000(c: Currency)
    requires 0 <= c as int < 68 && InTable(c)
    ensures |String(c)| == 3 && NoLower(String(c)) && CodeOfKey(Key(String(c))) == c as int
  {
  }

  lemma TableShape068(c: Currency)
    requires 68 <= c as int < 100 && InTable(c)
    ensures |String(c)| == 3 && NoLower(String(c)) && CodeOfKey(Key(String(c))) == c as int
  {
  }

  lemma TableShape100(c: Currency)
    requires 100 <= c as int < 191 && InTable(c)
    ensures |String(c)| == 3 && NoLower(String(c)) && CodeOfKey(Key(String(c))) == c as int
  {
  }

  lemma TableShape191(c: Currency)
    requires 191 <= c as int < 200 && InTable(c)
    ensures |String(c)| == 3 && NoLower(String(c)) && CodeOfKey(Key(String(c))) == c as int
  {
  }

  lemma TableShape200(c: Currency)
    requires 200 <= c as int < 300 && InTable(c)
    ensures |String(c)| == 3 && NoLower(String(c)) && CodeOfKey(Key(String(c))) == c as int
  {
  }

  lemma TableShape300(c: Currency)
    requires 300 <= c as int < 376 && InTable(c)
    ensures |String(c)| == 3 && NoLower(String(c)) && CodeOfKey(Key(String(c))) == c as int
  {
  }

  lemma TableShape376(c: Currency)
    requires 376 <= c as int < 400 && InTable(c)
    ensures |String(c)| == 3 && NoLower(String(c)) && CodeOfKey(Key(String(c))) == c as int
  {
  }

  lemma TableShape400(c: Currency)
    requires 400 <= c as int < 446 && InTable(c)
    ensures |String(c)| == 3 && NoLower(String(c)) && CodeOfKey(Key(String(c))) == c as int
  {
  }

  lemma TableShape446(c: Currency)
    requires 446 <= c as int < 500 && InTable(c)
    ensures |String(c)| == 3 && NoLower(String(c)) && CodeOfKey(Key(String(c))) == c as int
  {
  }

  lemma TableShape500(c: Currency)
    requires 500 <= c as int < 590 && InTable(c)
    ensures |String(c)| == 3 && NoLower(String(c)) && CodeOfKey(Key(String(c))) == c as int
  {
  }

  lemma TableShape590(c: Currency)
    requires 590 <= c as int < 600 && InTable(c)
    ensures |String(c)| == 3 && NoLower(String(c)) && CodeOfKey(Key(String(c))) == c as int
  {
  }

  lemma TableShape600(c: Currency)
    requires 600 <= c as int < 700 && InTable(c)
    ensures |String(c)| == 3 && NoLower(String(c)) && CodeOfKey(Key(String(c))) == c as int
  {
  }

  lemma TableShape700(c: Currency)
    requires 700 <= c as int < 784 && InTable(c)
    ensures |String(c)| == 3 && NoLower(String(c)) && CodeOfKey(Key(String(c))) == c as int
  {
  }

  lemma TableShape784(c: Currency)
    requires 784 <= c as int < 800 && InTable(c)
    ensures |String(c)| == 3 && NoLower(String(c)) && CodeOfKey(Key(String(c))) == c as int
  {
  }

  lemma TableShape800(c: Currency)
    requires 800 <= c as int < 900 && InTable(c)
    ensures |String(c)| == 3 && NoLower(String(c)) && CodeOfKey(Key(String(c))) == c as int
  {
  }

  lemma TableShape900(c: Currency)
    requires 900 <= c as int < 947 && InTable(c)
    ensures |String(c)| == 3 && NoLower(String(c)) && CodeOfKey(Key(String(c))) == c as int
  {
  }

  lemma TableShape947(c: Currency)
    requires 947 <= c as int < 950 && InTable(c)
    ensures |String(c)| == 3 && NoLower(String(c)) && CodeOfKey(Key(String(c))) == c as int
  {
  }

  lemma TableShape950(c: Currency)
    requires 950 <= c as int < 963 && InTable(c)
    ensures |String(c)| == 3 && NoLower(String(c)) && CodeOfKey(Key(String(c))) == c as int
  {
  }

  lemma TableShape963(c: Currency)
    requires 963 <= c as int < 976 && InTable(c)
    ensures |String(c)| == 3 && NoLower(String(c)) && CodeOfKey(Key(String(c))) == c as int
  {
  }

  lemma TableShape976(c: Currency)
    requires 976 <= c as int < 999 && InTable(c)
    ensures |String(c)| == 3 && NoLower(String(c)) && CodeOfKey(Key(String(c))) == c as int
  {
  }

  lemma TableShape999(c: Currency)
    requires 999 <= c as int < 1000 && InTable(c)
    ensures |String(c)| == 3 && NoLower(String(c)) && CodeOfKey(Key(String(c))) == c as int
  {
  }

  /** Every table name is three characters without lower-case letters, and CodeOfKey inverts the table. */
  lemma TableShape(c: Currency)
    requires InTable(c)
    ensures |String(c)| == 3 && NoLower(String(c)) && CodeOfKey(Key(String(c))) == c as int
  {
    if c as int < 68 {
      TableShape000(c);
    } else if c as int < 100 {
      TableShape068(c);
    } else if c as int < 191 {
      TableShape100(c);
    } else if c as int < 200 {
      TableShape191(c);
    } else if c as int < 300 {
      TableShape200(c);
    } else if c as int < 376 {
      TableShape300(c);
    } else if c as int < 400 {
      TableShape376(c);
    } else if c as int < 446 {
      TableShape400(c);
    } else if c as int < 500 {
      TableShape446(c);
    } else if c as int < 590 {
      TableShape500(c);
    } else if c as int < 600 {
      TableShape590(c);
    } else if c as int < 700 {
      TableShape600(c);
    } else if c as int < 784 {
      TableShape700(c);
    } else if c as int < 800 {
      TableShape784(c);
    } else if c as int < 900 {
      TableShape800(c);
    } else if c as int < 947 {
      TableShape900(c);
    } else if c as int < 950 {
      TableShape947(c);
    } else if c as int < 963 {
      TableShape950(c);
    } else if c as int < 976 {
      TableShape963(c);
    } else if c as int < 999 {
      TableShape976(c);
    } else {
      TableShape999(c);
    }
  }

  /** Codes outside the table have the empty name. */
  lemma NotInTableBeyond999(c: Currency)
    requires c as int >= 1000
    ensures !InTable(c)
  {
  }

  /** The table's names are pairwise distinct. */
  lemma NamesDistinct(a: Currency, b: Currency)
    requires InTable(a) && InTable(b) && String(a) == String(b)
    ensures a == b
  {
    TableShape(a);
    TableShape(b);
  }

  /** The constants agree with the table. */
  lemma ConstantNames000()
    ensures String(Unknown) == "---"
    ensures String(ALL) == "ALL"
    ensures String(DZD) == "DZD"
    ensures String(ARS) == "ARS"
    ensures String(AUD) == "AUD"
    ensures String(BSD) == "BSD"
  {
  }

  lemma ConstantNames048()
    ensures String(BHD) == "BHD"
    ensures String(BDT) == "BDT"
    ensures String(AMD) == "AMD"
    ensures String(BBD) == "BBD"
    ensures String(BMD) == "BMD"
    ensures String(BTN) == "BTN"
  {
  }

  lemma ConstantNames068()
    ensures String(BOB) == "BOB"
    ensures String(BWP) == "BWP"
    ensures String(BZD) == "BZD"
    ensures String(SBD) == "SBD"
    ensures String(BND) == "BND"
  {
  }

  lemma ConstantNames104()
    ensures String(MMK) == "MMK"
    ensures String(BIF) == "BIF"
    ensures String(KHR) == "KHR"
    ensures String(CAD) == "CAD"
    ensures String(CVE) == "CVE"
    ensures String(KYD) == "KYD"
  {
  }

  lemma ConstantNames144()
    ensures String(LKR) == "LKR"
    ensures String(CLP) == "CLP"
    ensures String(CNY) == "CNY"
    ensures String(COP) == "COP"
    ensures String(KMF) == "KMF"
    ensures String(CRC) == "CRC"
  {
  }

  lemma ConstantNames191()
    ensures String(HRK) == "HRK"
    ensures String(CUP) == "CUP"
  {
  }

  lemma ConstantNames203()
    ensures String(CZK) == "CZK"
    ensures String(DKK) == "DKK"
    ensures String(DOP) == "DOP"
    ensures String(SVC) == "SVC"
    ensures String(ETB) == "ETB"
    ensures String(ERN) == "ERN"
  {
  }

  lemma ConstantNames238()
    ensures String(FKP) == "FKP"
    ensures String(FJD) == "FJD"
    ensures String(DJF) == "DJF"
    ensures String(GMD) == "GMD"
    ensures String(GIP) == "GIP"
  {
  }

  lemma ConstantNames320()
    ensures String(GTQ) == "GTQ"
    ensures String(GNF) == "GNF"
    ensures String(GYD) == "GYD"
    ensures String(HTG) == "HTG"
    ensures String(HNL) == "HNL"
    ensures String(HKD) == "HKD"
  {
  }

  lemma ConstantNames348()
    ensures String(HUF) == "HUF"
    ensures String(ISK) == "ISK"
    ensures String(INR) == "INR"
    ensures String(IDR) == "IDR"
    ensures String(IRR) == "IRR"
    ensures String(IQD) == "IQD"
  {
  }

  lemma ConstantNames376()
    ensures String(ILS) == "ILS"
    ensures String(JMD) == "JMD"
    ensures String(JPY) == "JPY"
    ensures String(KZT) == "KZT"
  {
  }

  lemma ConstantNames400()
    ensures String(JOD) == "JOD"
    ensures String(KES) == "KES"
    ensures String(KPW) == "KPW"
    ensures String(KRW) == "KRW"
    ensures String(KWD) == "KWD"
    ensures String(KGS) == "KGS"
  {
  }

  lemma ConstantNames418()
    ensures String(LAK) == "LAK"
    ensures String(LBP) == "LBP"
    ensures String(LSL) == "LSL"
    ensures String(LRD) == "LRD"
    ensures String(LYD) == "LYD"
    ensures String(LTL) == "LTL"
  {
  }

  lemma ConstantNames446()
    ensures String(MOP) == "MOP"
    ensures String(MWK) == "MWK"
    ensures String(MYR) == "MYR"
    ensures String(MVR) == "MVR"
    ensures String(MRO) == "MRO"
    ensures String(MUR) == "MUR"
  {
  }

  lemma ConstantNames484()
    ensures String(MXN) == "MXN"
    ensures String(MNT) == "MNT"
    ensures String(MDL) == "MDL"
  {
  }

  lemma ConstantNames504()
    ensures String(MAD) == "MAD"
    ensures String(OMR) == "OMR"
    ensures String(NAD) == "NAD"
    ensures String(NPR) == "NPR"
    ensures String(ANG) == "ANG"
    ensures String(AWG) == "AWG"
  {
  }

  lemma ConstantNames548()
    ensures String(VUV) == "VUV"
    ensures String(NZD) == "NZD"
    ensures String(NIO) == "NIO"
    ensures String(NGN) == "NGN"
    ensures String(NOK) == "NOK"
    ensures String(PKR) == "PKR"
  {
  }

  lemma ConstantNames590()
    ensures String(PAB) == "PAB"
    ensures String(PGK) == "PGK"
  {
  }

  lemma ConstantNames600()
    ensures String(PYG) == "PYG"
    ensures String(PEN) == "PEN"
    ensures String(PHP) == "PHP"
    ensures String(QAR) == "QAR"
    ensures String(RUB) == "RUB"
    ensures String(RWF) == "RWF"
  {
  }

  lemma ConstantNames654()
    ensures String(SHP) == "SHP"
    ensures String(STD) == "STD"
    ensures String(SAR) == "SAR"
    ensures String(SCR) == "SCR"
    ensures String(SLL) == "SLL"
  {
  }

  lemma ConstantNames702()
    ensures String(SGD) == "SGD"
    ensures String(VND) == "VND"
    ensures String(SOS) == "SOS"
    ensures String(ZAR) == "ZAR"
    ensures String(SSP) == "SSP"
    ensures String(SZL) == "SZL"
  {
  }

  lemma ConstantNames752()
    ensures String(SEK) == "SEK"
    ensures String(CHF) == "CHF"
    ensures String(SYP) == "SYP"
    ensures String(THB) == "THB"
    ensures String(TOP) == "TOP"
    ensures String(TTD) == "TTD"
  {
  }

  lemma ConstantNames784()
    ensures String(AED) == "AED"
    ensures String(TND) == "TND"
  {
  }

  lemma ConstantNames800()
    ensures String(UGX) == "UGX"
    ensures String(MKD) == "MKD"
    ensures String(EGP) == "EGP"
    ensures String(GBP) == "GBP"
    ensures String(TZS) == "TZS"
    ensures String(USD) == "USD"
  {
  }

  lemma ConstantNames858()
    ensures String(UYU) == "UYU"
    ensures String(UZS) == "UZS"
    ensures String(WST) == "WST"
    ensures String(YER) == "YER"
  {
  }

  lemma ConstantNames901()
    ensures String(TWD) == "TWD"
    ensures String(CUC) == "CUC"
    ensures String(ZWL) == "ZWL"
    ensures String(TMT) == "TMT"
    ensures String(GHS) == "GHS"
    ensures String(VEF) == "VEF"
  {
  }

  lemma ConstantNames938()
    ensures String(SDG) == "SDG"
    ensures String(UYI) == "UYI"
    ensures String(RSD) == "RSD"
    ensures String(MZN) == "MZN"
    ensures String(AZN) == "AZN"
    ensures String(RON) == "RON"
  {
  }

  lemma ConstantNames947()
    ensures String(CHE) == "CHE"
    ensures String(CHW) == "CHW"
    ensures String(TRY) == "TRY"
  {
  }

  lemma ConstantNames950()
    ensures String(XAF) == "XAF"
    ensures String(XCD) == "XCD"
    ensures String(XOF) == "XOF"
    ensures String(XPF) == "XPF"
    ensures String(XBA) == "XBA"
    ensures String(XBB) == "XBB"
  {
  }

  lemma ConstantNames957()
    ensures String(XBC) == "XBC"
    ensures String(XBD) == "XBD"
    ensures String(XAU) == "XAU"
    ensures String(XDR) == "XDR"
    ensures String(XAG) == "XAG"
    ensures String(XPT) == "XPT"
  {
  }

  lemma ConstantNames963()
    ensures String(XTS) == "XTS"
    ensures String(XPD) == "XPD"
    ensures String(XUA) == "XUA"
    ensures String(ZMW) == "ZMW"
    ensures String(SRD) == "SRD"
    ensures String(MGA) == "MGA"
  {
  }

  lemma ConstantNames970()
    ensures String(COU) == "COU"
    ensures String(AFN) == "AFN"
    ensures String(TJS) == "TJS"
    ensures String(AOA) == "AOA"
    ensures String(BYR) == "BYR"
    ensures String(BGN) == "BGN"
  {
  }

  lemma ConstantNames976()
    ensures String(CDF) == "CDF"
    ensures String(BAM) == "BAM"
    ensures String(EUR) == "EUR"
    ensures String(MXV) == "MXV"
    ensures String(UAH) == "UAH"
    ensures String(GEL) == "GEL"
  {
  }

  lemma ConstantNames984()
    ensures String(BOV) == "BOV"
    ensures String(PLN) == "PLN"
    ensures String(BRL) == "BRL"
    ensures String(CLF) == "CLF"
    ensures String(XSU) == "XSU"
    ensures String(USN) == "USN"
  {
  }

  lemma ConstantNames999()
    ensures String(XXX) == "XXX"
  {
  }

  /**
   * The ranging loop of FromString: the first code at or above `from`
   * whose table name is `name`, scanning codes in increasing order.
   */
  function Find(name: string, from: int): (r: Option<Currency>)
    requires 0 <= from <= 0x1_0000
    ensures r.Some? ==> from <= r.value as int && InTable(r.value) && String(r.value) == name
    ensures r.None? ==> forall c: Currency :: from <= c as int && InTable(c) ==> String(c) != name
    decreases 0x1_0000 - from
  {
    if from == 0x1_0000 then None
    else if InTable(from as Currency) && String(from as Currency) == name then Some(from as Currency)
    else Find(name, from + 1)
  }

  /**
   * FromString: the code whose table name is the upper-cased argument,
   * or Unknown when no table name matches.
   */
  function FromString(code: string): (r: Currency)
    ensures (InTable(r) && String(r) == ToUpper(code))
         || (r == Unknown && forall c: Currency :: InTable(c) ==> String(c) != ToUpper(code))
  {
    match Find(ToUpper(code), 0)
    case Some(c) => c
    case None => Unknown
  }

  /** Looking up a code's own name gives back the code. */
  lemma FromStringOfString(c: Currency)
    requires InTable(c)
    ensures FromString(String(c)) == c
  {
    TableShape(c);
    ToUpperOfNoLower(String(c));
    NamesDistinct(c, FromString(String(c)));
  }

  /** The lookup ignores ASCII case: lower-cased names are found as well. */
  lemma FromStringOfLower(c: Currency)
    requires InTable(c)
    ensures FromString(ToLower(String(c))) == c
  {
    TableShape(c);
    ToUpperOfToLower(String(c));
    NamesDistinct(c, FromString(ToLower(String(c))));
  }

  /** Upper-casing the argument first changes nothing. */
  lemma FromStringIgnoresCase(code: string)
    ensures FromString(ToUpper(code)) == FromString(code)
  {
    ToUpperIdempotent(code);
  }
}
