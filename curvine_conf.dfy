/** Worker data-directory and size-string parsers of the cluster
    configuration (src/domain/config/curvine.rs). */
module CurvineConf {
  import opened Wrappers
  import opened Strings

  /** Storage tiers; `Ssd` is the serde default. */
  datatype StorageType = Mem | Ssd | Hdd | Disk | Ufs

  /** The serde name of a tier. */
  function TierName(t: StorageType): string {
    match t
    case Mem => "mem"
    case Ssd => "ssd"
    case Hdd => "hdd"
    case Disk => "disk"
    case Ufs => "ufs"
  }

  /** `StorageType::from_str_name`: case-insensitive, unknown names are Disk. */
  function FromStrName(s: string): (t: StorageType)
    ensures t == Disk || ToLower(s) == TierName(t)
    ensures (exists u :: TierName(u) == ToLower(s)) ==> TierName(t) == ToLower(s)
  {
    match ToLower(s)
    case "mem" => Mem
    case "ssd" => Ssd
    case "hdd" => Hdd
    case "disk" => Disk
    case "ufs" => Ufs
    case _ => Disk
  }

  /** Every tier's own name maps back to that tier. */
  lemma FromStrNameTierName(t: StorageType)
    ensures FromStrName(TierName(t)) == t
  {
    assert ToLower(TierName(t)) == TierName(t);
  }

  lemma LowerOfUpper(s: string)
    ensures ToLower(ToUpper(s)) == ToLower(s)
  {
    assert forall k :: 0 <= k < |s| ==> LowerChar(UpperChar(s[k])) == LowerChar(s[k]);
  }

  /** The tier mapping ignores ASCII case. */
  lemma FromStrNameIgnoresCase(s: string)
    ensures FromStrName(ToUpper(s)) == FromStrName(s)
  {
    LowerOfUpper(s);
  }

  // ------------------------------------------------------------ sizes

  const KiB: nat := 1024
  const MiB: nat := 1048576
  const GiB: nat := 1073741824
  const TiB: nat := 1099511627776

  /** The byte count `num * unit`, before any 64-bit reduction. */
  function Product(n: nat, unit: nat): nat {
    n * unit
  }

  /** Reduction of a product to 64 bits, as an unchecked `u64` multiplication does. */
  function Wrap64(x: nat): (r: nat)
    ensures r < U64_LIMIT
    ensures x < U64_LIMIT ==> r == x
  {
    x % U64_LIMIT
  }

  /** The recognised unit suffix of an already trimmed, upper-cased size
      string and its multiplier, tried in the order TB, GB, MB, KB, B. */
  function SizeUnit(u: string): (r: SizeParts)
    ensures |r.number| <= |u| && r.number == u[..|r.number|]
    ensures r.unit in {TiB, GiB, MiB, KiB, 1}
  {
    if EndsWith(u, "TB") then SizeParts(u[..|u| - 2], TiB)
    else if EndsWith(u, "GB") then SizeParts(u[..|u| - 2], GiB)
    else if EndsWith(u, "MB") then SizeParts(u[..|u| - 2], MiB)
    else if EndsWith(u, "KB") then SizeParts(u[..|u| - 2], KiB)
    else if EndsWith(u, "B") then SizeParts(u[..|u| - 1], 1)
    else SizeParts(u, 1)
  }

  /** A size string split into its number part and unit multiplier. */
  datatype SizeParts = SizeParts(number: string, unit: nat)

  /** `parse_size_string` exactly as written: on a 64-bit release build the
      final `num * unit` wraps around modulo 2^64. */
  function ParseSizeStringAsWritten(s: string): (r: Result<nat, string>)
    ensures r.Ok? ==> r.value < U64_LIMIT
  {
    var u := ToUpper(Trim(s));
    var parts := SizeUnit(u);
    match ParseU64(Trim(parts.number))
    case None => Err("Invalid size string: " + u)
    case Some(n) => var bytes := Product(n, parts.unit); Ok(Wrap64(bytes))
  }

  /** `parse_size_string` with the multiplication checked: a product that
      does not fit in a u64 is reported as an invalid size. */
  function ParseSizeString(s: string): (r: Result<nat, string>)
    ensures r.Ok? ==> r.value < U64_LIMIT
    ensures r.Ok? ==> ParseSizeStringAsWritten(s) == r
  {
    var u := ToUpper(Trim(s));
    var parts := SizeUnit(u);
    match ParseU64(Trim(parts.number))
    case None => Err("Invalid size string: " + u)
    case Some(n) =>
      var bytes := Product(n, parts.unit);
      if bytes < U64_LIMIT then Ok(bytes) else Err("Invalid size string: " + u)
  }

  /** The suffixes `parse_size_string` understands, with their multipliers. */
  predicate IsSizeSuffix(suffix: string, unit: nat) {
    (suffix, unit) in {("TB", TiB), ("GB", GiB), ("MB", MiB), ("KB", KiB), ("B", 1), ("", 1)}
  }

  lemma SizeUnitOfDigits(d: string, suffix: string, unit: nat)
    requires |d| >= 1 && AllDigits(d) && IsSizeSuffix(suffix, unit)
    ensures SizeUnit(d + suffix) == SizeParts(d, unit)
  {
    var u := d + suffix;
    assert IsAsciiDigit(u[|d| - 1]);
    assert u[..|d|] == d;
    if suffix == "" {
      assert !EndsWith(u, "B");
    } else if suffix == "B" {
      assert !EndsWith(u, "TB") && !EndsWith(u, "GB") && !EndsWith(u, "MB") && !EndsWith(u, "KB");
    }
  }

  lemma UpperOfDigitsThen(d: string, spelled: string, suffix: string)
    requires AllDigits(d) && ToUpper(spelled) == suffix
    ensures ToUpper(d + spelled) == d + suffix
  {
    var s := d + spelled;
    forall k | 0 <= k < |s| ensures ToUpper(s)[k] == (d + suffix)[k] {
      if k >= |d| { assert s[k] == spelled[k - |d|]; }
    }
  }

  lemma ProductAtLeast(n: nat, unit: nat)
    requires unit >= 1
    ensures Product(n, unit) >= n
  {
    assert n * unit == n * (unit - 1) + n;
  }

  /** Digits followed by a spelled unit: nothing to trim, and the upper-cased
      text splits into the digits and the unit's multiplier. */
  lemma SpelledSizeParts(d: string, spelled: string, suffix: string, unit: nat)
    requires |d| >= 1 && AllDigits(d)
    requires IsSizeSuffix(suffix, unit)
    requires ToUpper(spelled) == suffix
    requires forall k :: 0 <= k < |spelled| ==> IsAsciiAlpha(spelled[k])
    ensures ToUpper(Trim(d + spelled)) == d + suffix
    ensures SizeUnit(d + suffix) == SizeParts(d, unit)
    ensures Trim(d) == d
  {
    TrimDigitsThenLetters(d, spelled);
    UpperOfDigitsThen(d, spelled, suffix);
    TrimDigitsThenLetters(d, "");
    assert d + "" == d;
    SizeUnitOfDigits(d, suffix, unit);
  }

  /** Digits followed by letters have no whitespace to trim. */
  lemma TrimDigitsThenLetters(d: string, letters: string)
    requires |d| >= 1 && AllDigits(d)
    requires forall k :: 0 <= k < |letters| ==> IsAsciiAlpha(letters[k])
    ensures Trim(d + letters) == d + letters
  {
    var s := d + letters;
    assert !IsWhitespace(s[0]) && !IsWhitespace(s[|s| - 1]);
    TrimNoop(s);
  }

  /** One spelling of the suffix after a digit string: it upper-cases to the canonical one. */
  lemma ParseSizeOfSpelling(d: string, n: nat, spelled: string, suffix: string, unit: nat)
    requires |d| >= 1 && AllDigits(d) && ParseU64(d) == Some(n)
    requires IsSizeSuffix(suffix, unit)
    requires ToUpper(spelled) == suffix
    requires forall k :: 0 <= k < |spelled| ==> IsAsciiAlpha(spelled[k])
    ensures Product(n, unit) < U64_LIMIT ==> ParseSizeString(d + spelled) == Ok(n * unit)
    ensures Product(n, unit) >= U64_LIMIT ==> ParseSizeString(d + spelled).Err?
    ensures ParseSizeStringAsWritten(d + spelled) == Ok(Wrap64(Product(n, unit)))
  {
    SpelledSizeParts(d, spelled, suffix, unit);
    ParseSizeStringOfParts(d + spelled, d + suffix, d, n, unit);
  }

  lemma ParseSizeStringOfParts(s: string, u: string, number: string, n: nat, unit: nat)
    requires ToUpper(Trim(s)) == u
    requires SizeUnit(u) == SizeParts(number, unit)
    requires ParseU64(Trim(number)) == Some(n)
    ensures Product(n, unit) < U64_LIMIT ==> ParseSizeString(s) == Ok(n * unit)
    ensures Product(n, unit) >= U64_LIMIT ==> ParseSizeString(s).Err?
    ensures ParseSizeStringAsWritten(s) == Ok(Wrap64(Product(n, unit)))
  {
  }

  /** A decimal number followed by a unit suffix, upper- or lower-case,
      parses to the number times the unit when the product fits in a u64. */
  lemma ParseSizeOfNumberAndUnit(n: nat, suffix: string, unit: nat)
    requires IsSizeSuffix(suffix, unit)
    requires Product(n, unit) < U64_LIMIT
    ensures ParseSizeString(NatToString(n) + suffix) == Ok(n * unit)
    ensures ParseSizeString(NatToString(n) + ToLower(suffix)) == Ok(n * unit)
  {
    SuffixSpellings(suffix, unit);
    ParseSizeOfNumberSpelled(n, suffix, suffix, unit);
    ParseSizeOfNumberSpelled(n, ToLower(suffix), suffix, unit);
  }

  /** Both spellings of a unit suffix are letters that upper-case to it. */
  lemma SuffixSpellings(suffix: string, unit: nat)
    requires IsSizeSuffix(suffix, unit)
    ensures ToUpper(suffix) == suffix && ToUpper(ToLower(suffix)) == suffix
    ensures forall k :: 0 <= k < |suffix| ==> IsAsciiAlpha(suffix[k])
    ensures forall k :: 0 <= k < |ToLower(suffix)| ==> IsAsciiAlpha(ToLower(suffix)[k])
  {
  }

  lemma ParseSizeOfNumberSpelled(n: nat, spelled: string, suffix: string, unit: nat)
    requires IsSizeSuffix(suffix, unit)
    requires ToUpper(spelled) == suffix
    requires forall k :: 0 <= k < |spelled| ==> IsAsciiAlpha(spelled[k])
    requires Product(n, unit) < U64_LIMIT
    ensures ParseSizeString(NatToString(n) + spelled) == Ok(n * unit)
  {
    ProductAtLeast(n, unit);
    ParseNatToString(n, U64_LIMIT);
    ParseSizeOfSpelling(NatToString(n), n, spelled, suffix, unit);
  }

  lemma ParseSixteenMebi()
    ensures ParseU64("16777216") == Some(16777216)
  {
    var d := "16777216";
    assert DigitsValue(d[..1]) == 1 by { assert d[..1][..0] == d[..0]; }
    assert DigitsValue(d[..2]) == 16 by { assert d[..2][..1] == d[..1]; }
    assert DigitsValue(d[..3]) == 167 by { assert d[..3][..2] == d[..2]; }
    assert DigitsValue(d[..4]) == 1677 by { assert d[..4][..3] == d[..3]; }
    assert DigitsValue(d[..5]) == 16777 by { assert d[..5][..4] == d[..4]; }
    assert DigitsValue(d[..6]) == 167772 by { assert d[..6][..5] == d[..5]; }
    assert DigitsValue(d[..7]) == 1677721 by { assert d[..7][..6] == d[..6]; }
    assert DigitsValue(d[..8]) == 16777216 by { assert d[..8][..7] == d[..7]; }
    assert d[..8] == d;
    assert ParseU64(d) == Some(16777216);
  }

  lemma SixteenMebiTebiText()
    ensures "16777216" + "TB" == "16777216TB"
  {
  }

  lemma SixteenMebiTebi()
    ensures Product(16777216, TiB) == U64_LIMIT
  {
  }

  /** `parse_size_string("16777216TB")`: 2^24 TiB is 2^64 bytes, which the
      unchecked multiplication wraps to a capacity of 0, while the checked
      parser reports the overflow. */
  lemma SizeOverflowWrapsToZero()
    ensures ParseSizeStringAsWritten("16777216TB") == Ok(0)
    ensures ParseSizeString("16777216TB").Err?
  {
    var d := "16777216";
    ParseSixteenMebi();
    SixteenMebiTebi();
    SixteenMebiTebiText();
    ParseSizeOfSpelling(d, 16777216, "TB", "TB", TiB);
  }

  /** The capacity "0" used for a tier without a size. */
  lemma ParseSizeZero()
    ensures ParseSizeString("0") == Ok(0)
  {
    ZeroDigit();
    ParseSizeOfSpelling("0", 0, "", "", 1);
  }

  lemma ZeroDigit()
    ensures |"0"| >= 1 && AllDigits("0") && ParseU64("0") == Some(0)
    ensures IsSizeSuffix("", 1) && ToUpper("") == ""
    ensures "0" + "" == "0"
  {
    assert DigitsValue("0") == 0 by {
      assert "0"[..0] == "";
    }
  }

  /** A number part that does not parse as a u64 fails both parses. */
  lemma ParseSizeStringNoNumber(s: string, u: string, number: string)
    requires ToUpper(Trim(s)) == u
    requires SizeUnit(u).number == number
    requires ParseU64(Trim(number)).None?
    ensures ParseSizeString(s).Err? && ParseSizeStringAsWritten(s).Err?
  {
  }

  /** A digit string whose value does not fit in a u64 does not parse. */
  lemma ParseU64OutOfRange(d: string)
    requires |d| >= 1 && AllDigits(d) && DigitsValue(d) >= U64_LIMIT
    ensures ParseU64(d).None?
  {
  }

  /** A digit string too large for a u64, followed by a unit spelled in
      any letter case, is rejected by both parses: the number itself does
      not parse, before any multiplication. */
  lemma ParseSizeRejectsOutOfRange(d: string, spelled: string, suffix: string, unit: nat)
    requires |d| >= 1 && AllDigits(d) && DigitsValue(d) >= U64_LIMIT
    requires IsSizeSuffix(suffix, unit)
    requires ToUpper(spelled) == suffix
    requires forall k :: 0 <= k < |spelled| ==> IsAsciiAlpha(spelled[k])
    ensures ParseSizeString(d + spelled).Err? && ParseSizeStringAsWritten(d + spelled).Err?
  {
    SpelledSizeParts(d, spelled, suffix, unit);
    ParseU64OutOfRange(d);
    ParseSizeStringNoNumber(d + spelled, d + suffix, d);
  }

  // --------------------------------------------------------- data dirs

  /** A worker data directory: tier, capacity in bytes, and local path. */
  datatype WorkerDataDir = WorkerDataDir(storageType: StorageType, capacity: nat, path: string)

  /** Characters of the regex class `[\w:]`, restricted to ASCII. */
  predicate IsPrefixChar(c: char) {
    IsAsciiAlnum(c) || c == '_' || c == ':'
  }

  /** First index at or after `i` that ends the run of prefix characters. */
  function PrefixEnd(s: string, i: nat): (r: nat)
    requires i <= |s|
    ensures i <= r <= |s|
    ensures forall k :: i <= k < r ==> IsPrefixChar(s[k])
    ensures r < |s| ==> !IsPrefixChar(s[r])
    decreases |s| - i
  {
    if i == |s| || !IsPrefixChar(s[i]) then i else PrefixEnd(s, i + 1)
  }

  /** The regex `^\[([\w:]*)\](.+)$`: the captured prefix and path, if it matches. */
  function MatchBracketed(s: string): (r: Option<(string, string)>)
    ensures r.Some? ==> s == "[" + r.value.0 + "]" + r.value.1
  {
    if |s| == 0 || s[0] != '[' then None
    else
      var k := PrefixEnd(s, 1);
      if k < |s| && s[k] == ']' && k + 1 < |s| && '\n' !in s[k + 1..] then
        assert s == "[" + s[1..k] + "]" + s[k + 1..];
        Some((s[1..k], s[k + 1..]))
      else None
  }

  /** The pieces of a bracketed data directory are recovered by the match. */
  lemma MatchBracketedOf(prefix: string, path: string)
    requires forall k :: 0 <= k < |prefix| ==> IsPrefixChar(prefix[k])
    requires |path| > 0 && '\n' !in path
    ensures MatchBracketed("[" + prefix + "]" + path) == Some((prefix, path))
  {
    var s := "[" + prefix + "]" + path;
    var k := PrefixEnd(s, 1);
    assert forall j :: 1 <= j < |prefix| + 1 ==> s[j] == prefix[j - 1];
    assert !IsPrefixChar(s[|prefix| + 1]);
    assert k == |prefix| + 1;
    assert s[1..k] == prefix;
    assert s[k + 1..] == path;
  }

  predicate AllAlphabetic(s: string) {
    forall k :: 0 <= k < |s| ==> IsAsciiAlpha(s[k])
  }

  /** `WorkerDataDir::parse_data_dir` */
  function ParseDataDir(s: string): (r: Result<WorkerDataDir, string>)
    ensures r.Ok? ==> r.value.capacity < U64_LIMIT
  {
    match MatchBracketed(s)
    case None => Ok(WorkerDataDir(Disk, 0, s))
    case Some((prefix, path)) =>
      if prefix == "" then Ok(WorkerDataDir(Disk, 0, s))
      else
        var arr := Split(prefix, ':');
        if |arr| > 2 then Err("Incorrect data format " + s)
        else
          var (tier, capacity) :=
            if |arr| == 1 then (if AllAlphabetic(arr[0]) then (arr[0], "0") else ("disk", arr[0]))
            else (arr[0], arr[1]);
          match ParseSizeString(capacity)
          case Err(e) => Err(e)
          case Ok(c) => Ok(WorkerDataDir(FromStrName(tier), c, path))
  }

  /** A string that is not `[prefix]path` names a Disk directory of unknown
      capacity at the whole string. */
  lemma ParseDataDirUnbracketed(s: string)
    requires MatchBracketed(s).None?
    ensures ParseDataDir(s) == Ok(WorkerDataDir(Disk, 0, s))
  {
  }

  /** An empty prefix `[]path` is a Disk directory whose path keeps the brackets. */
  lemma ParseDataDirEmptyPrefix(path: string)
    requires |path| > 0 && '\n' !in path
    ensures ParseDataDir("[]" + path) == Ok(WorkerDataDir(Disk, 0, "[]" + path))
  {
    MatchBracketedOf("", path);
    assert "[" + "" + "]" + path == "[]" + path;
  }

  /** `[TIER:CAP]path` gives the tier of TIER, the size of CAP and the path. */
  lemma ParseDataDirTierAndCapacity(tier: string, cap: string, path: string)
    requires forall k :: 0 <= k < |tier| ==> IsPrefixChar(tier[k]) && tier[k] != ':'
    requires forall k :: 0 <= k < |cap| ==> IsPrefixChar(cap[k]) && cap[k] != ':'
    requires |path| > 0 && '\n' !in path
    ensures var r := ParseDataDir("[" + tier + ":" + cap + "]" + path);
      match ParseSizeString(cap)
      case Ok(c) => r == Ok(WorkerDataDir(FromStrName(tier), c, path))
      case Err(_) => r.Err?
  {
    var prefix := tier + ":" + cap;
    var s := "[" + tier + ":" + cap + "]" + path;
    PrefixCharsOfPair(tier, cap);
    MatchBracketedOf(prefix, path);
    assert s == "[" + prefix + "]" + path;
    SplitJoin([tier, cap], ':');
    assert Join([tier, cap], ':') == prefix;
    ParseDataDirOfPair(s, prefix, path, tier, cap);
  }

  /** `TIER:CAP` is made of prefix characters when both halves are. */
  lemma PrefixCharsOfPair(tier: string, cap: string)
    requires forall k :: 0 <= k < |tier| ==> IsPrefixChar(tier[k])
    requires forall k :: 0 <= k < |cap| ==> IsPrefixChar(cap[k])
    ensures forall k :: 0 <= k < |tier + ":" + cap| ==> IsPrefixChar((tier + ":" + cap)[k])
  {
    var prefix := tier + ":" + cap;
    forall k | 0 <= k < |prefix| ensures IsPrefixChar(prefix[k]) {
      if k > |tier| { assert prefix[k] == cap[k - |tier| - 1]; }
    }
  }

  /** A bracketed prefix that splits into two fields is a tier and a capacity. */
  lemma ParseDataDirOfPair(s: string, prefix: string, path: string, tier: string, cap: string)
    requires MatchBracketed(s) == Some((prefix, path))
    requires Split(prefix, ':') == [tier, cap]
    requires prefix != ""
    ensures match ParseSizeString(cap)
      case Ok(c) => ParseDataDir(s) == Ok(WorkerDataDir(FromStrName(tier), c, path))
      case Err(_) => ParseDataDir(s).Err?
  {
  }

  /** `[NAME]path` with an alphabetic NAME is that tier with capacity 0. */
  lemma ParseDataDirTierOnly(tier: string, path: string)
    requires |tier| > 0 && AllAlphabetic(tier)
    requires |path| > 0 && '\n' !in path
    ensures ParseDataDir("[" + tier + "]" + path) == Ok(WorkerDataDir(FromStrName(tier), 0, path))
  {
    MatchBracketedOf(tier, path);
    assert MatchBracketed("[" + tier + "]" + path) == Some((tier, path));
    assert IndexOf(tier, ':') == None;
    assert Split(tier, ':') == [tier];
    ParseSizeZero();
  }

  /** `[CAP]path` with a non-alphabetic CAP is a Disk directory of size CAP. */
  lemma ParseDataDirCapacityOnly(cap: string, path: string)
    requires |cap| > 0 && !AllAlphabetic(cap)
    requires forall k :: 0 <= k < |cap| ==> IsPrefixChar(cap[k]) && cap[k] != ':'
    requires |path| > 0 && '\n' !in path
    ensures var r := ParseDataDir("[" + cap + "]" + path);
      match ParseSizeString(cap)
      case Ok(c) => r == Ok(WorkerDataDir(Disk, c, path))
      case Err(_) => r.Err?
  {
    MatchBracketedOf(cap, path);
    assert MatchBracketed("[" + cap + "]" + path) == Some((cap, path));
    assert IndexOf(cap, ':') == None;
    assert Split(cap, ':') == [cap];
    assert FromStrName("disk") == Disk by {
      assert ToLower("disk") == "disk";
    }
  }

  /** Three or more `:`-separated prefix parts are rejected. */
  lemma ParseDataDirTooManyParts(parts: seq<string>, path: string)
    requires |parts| >= 3
    requires forall i, k :: 0 <= i < |parts| && 0 <= k < |parts[i]| ==>
      IsPrefixChar(parts[i][k]) && parts[i][k] != ':'
    requires |path| > 0 && '\n' !in path
    ensures ParseDataDir("[" + Join(parts, ':') + "]" + path).Err?
  {
    JoinOfPrefixChars(parts);
    MatchBracketedOf(Join(parts, ':'), path);
    SplitJoin(parts, ':');
  }

  lemma {:induction false} JoinOfPrefixChars(parts: seq<string>)
    requires |parts| >= 2
    requires forall i, k :: 0 <= i < |parts| && 0 <= k < |parts[i]| ==>
      IsPrefixChar(parts[i][k]) && parts[i][k] != ':'
    ensures forall k :: 0 <= k < |Join(parts, ':')| ==> IsPrefixChar(Join(parts, ':')[k])
    ensures forall i :: 0 <= i < |parts| ==> ':' !in parts[i]
    ensures Join(parts, ':') != ""
  {
    var rest := Join(parts[1..], ':');
    if |parts| == 2 {
      assert rest == parts[1];
    } else {
      JoinOfPrefixChars(parts[1..]);
    }
    var j := parts[0] + [':'] + rest;
    assert Join(parts, ':') == j;
    forall k | 0 <= k < |j| ensures IsPrefixChar(j[k]) {
      if k > |parts[0]| { assert j[k] == rest[k - |parts[0]| - 1]; }
    }
  }

  /** The canonical spelling `[tier:capacity]path` of a data directory. */
  function FormatDataDir(d: WorkerDataDir): string {
    "[" + TierName(d.storageType) + ":" + NatToString(d.capacity) + "]" + d.path
  }

  lemma TierNameIsWord(t: StorageType)
    ensures forall k :: 0 <= k < |TierName(t)| ==> IsPrefixChar(TierName(t)[k]) && TierName(t)[k] != ':'
  {
  }

  /** A printed capacity parses back to itself. */
  lemma ParseSizeOfPrinted(c: nat)
    requires c < U64_LIMIT
    ensures ParseSizeString(NatToString(c)) == Ok(c)
  {
    assert Product(c, 1) == c;
    ParseSizeOfNumberAndUnit(c, "", 1);
    assert NatToString(c) + "" == NatToString(c);
  }

  /** Parsing the canonical spelling of a data directory gives it back. */
  lemma ParseFormatDataDir(d: WorkerDataDir)
    requires d.capacity < U64_LIMIT
    requires |d.path| > 0 && '\n' !in d.path
    ensures ParseDataDir(FormatDataDir(d)) == Ok(d)
  {
    var tier := TierName(d.storageType);
    var cap := NatToString(d.capacity);
    TierNameIsWord(d.storageType);
    assert forall k :: 0 <= k < |cap| ==> IsPrefixChar(cap[k]) && cap[k] != ':';
    ParseDataDirTierAndCapacity(tier, cap, d.path);
    ParseSizeOfPrinted(d.capacity);
    FromStrNameTierName(d.storageType);
  }

  // ------------------------------------------------- cluster configuration

  /** The parts of `ClusterConf` the composition engine reads or rewrites;
      the many tuning settings it only carries along are not modelled. */
  datatype ClusterConf = ClusterConf(
    clusterId: string, master: MasterConf, journal: JournalConf,
    worker: WorkerConf, client: ClientConf)

  datatype InetAddr = InetAddr(hostname: string, port: nat)

  datatype RaftPeer = RaftPeer(id: nat, hostname: string, port: nat)

  datatype MasterConf = MasterConf(rpcPort: nat, webPort: nat, metaDir: string)

  datatype JournalConf = JournalConf(rpcPort: nat, journalDir: string, journalAddrs: Option<seq<RaftPeer>>)

  datatype WorkerConf = WorkerConf(rpcPort: nat, dataDir: seq<string>)

  datatype ClientConf = ClientConf(
    masterAddrs: Option<seq<InetAddr>>, blockSize: int, blockSizeStr: string,
    kubernetes: Option<KubernetesConf>)

  /** The `[client.kubernetes]` section of the configuration file. */
  datatype KubernetesConf = KubernetesConf(
    namespace: string, clusterId: Option<string>, master: KubernetesMasterConf,
    worker: KubernetesWorkerConf, service: KubernetesServiceConf,
    storage: Option<KubernetesStorageConf>, imagePullPolicy: string,
    imagePullSecrets: seq<string>)

  datatype KubernetesMasterConf = KubernetesMasterConf(
    replicas: nat, image: string, podTemplate: Option<string>,
    nodeSelector: Option<map<string, string>>, gracefulShutdown: bool)

  datatype KubernetesWorkerConf = KubernetesWorkerConf(
    replicas: nat, image: string, podTemplate: Option<string>,
    nodeSelector: Option<map<string, string>>, storageClass: Option<string>,
    gracefulShutdown: bool, hostNetwork: bool, initContainer: bool)

  datatype KubernetesServiceConf = KubernetesServiceConf(
    serviceType: string, annotations: map<string, string>,
    sessionAffinity: Option<string>, externalIps: seq<string>)

  datatype KubernetesStorageConf = KubernetesStorageConf(
    storageClass: string, masterStorageClass: Option<string>, workerStorageClass: Option<string>,
    masterSize: Option<string>, workerSize: Option<string>)

  const DEFAULT_IMAGE := "docker.io/curvine:latest"

  /** The serde defaults of the records above. */
  const DefaultMasterConf := MasterConf(8995, 9000, "/tmp/curvine/master/meta")
  const DefaultJournalConf := JournalConf(8996, "/tmp/curvine/master/journal", None)
  const DefaultWorkerConf := WorkerConf(8997, [])
  const DefaultClientConf := ClientConf(None, 0, "128MB", None)
  const DefaultClusterConf :=
    ClusterConf("curvine", DefaultMasterConf, DefaultJournalConf, DefaultWorkerConf, DefaultClientConf)
  const DefaultKubernetesMasterConf := KubernetesMasterConf(3, DEFAULT_IMAGE, None, None, true)
  const DefaultKubernetesWorkerConf :=
    KubernetesWorkerConf(3, DEFAULT_IMAGE, None, None, None, true, false, false)
  const DefaultKubernetesServiceConf := KubernetesServiceConf("ClusterIP", map[], None, [])
  const DefaultKubernetesConf :=
    KubernetesConf("default", None, DefaultKubernetesMasterConf, DefaultKubernetesWorkerConf,
                   DefaultKubernetesServiceConf, None, "IfNotPresent", [])
}
