/**
 * The neighbor report builder: `show cdp neighbors` output, merged into
 * logical lines, is split into the entry-count line, the legend/header lines
 * and the neighbor lines; the neighbor lines are sorted into five categories
 * by keyword; and the report lists the categories in a fixed order.
 */
module CdpNeighbors {
  import opened Wrappers
  import opened Seqs
  import opened Text
  import opened LineMerger
  import opened Report

  // ---------------------------------------------------------------------
  // Fixed markers, keywords and report texts

  const TopMarker := "Total cdp entries displayed"
  const TopPlaceholder := "Total cdp entries displayed: N/A"
  const CapabilityMarker := "Capability Codes:"
  const DeviceIdMarker := "Device ID"

  const SavKeywords := ["sav01", "sav02", "sav03", "CBS350", "SAV01", "SAV02", "SAV03"]
  const UplinkKeywords := ["LBDS", "BDS", "SBDS", "HDS", "CPDS"]
  const WapModels := ["C9120AXI", "C9130A", "C9120A", "CW9166I", "AIR-AP"]
  const PhoneKeyword := "T33"

  const WapHeading := "WAPs:"
  const WapPlaceholder := "No WAP entries found."
  const WapCountHeading := "Total number of WAPs: "
  const PhoneHeading := "\nPhone Handsets:"
  const PhonePlaceholder := "No phone handset entries found."
  const PhoneCountHeading := "Total number of Phone Handsets: "
  const SavHeading := "\nsav switches:"
  const SavPlaceholder := "No sav switch entries found."
  const UplinkHeading := "\nuplink to distribution layer:"
  const UplinkPlaceholder := "No uplink entries found."
  const UnsortedHeading := "\nUnsorted:"
  const UnsortedPlaceholder := "No unsorted entries found."
  const BottomPlaceholder := "No bottom special lines found."

  // ---------------------------------------------------------------------
  // Special lines

  /** The entry-count line, moved to the top of the report. */
  predicate IsTopLine(line: string) {
    StartsWith(line, TopMarker)
  }

  /** A legend or column-header line, moved to the bottom; the top test wins over it. */
  predicate IsBottomLine(line: string) {
    !IsTopLine(line) && (StartsWith(line, CapabilityMarker) || StartsWith(line, DeviceIdMarker))
  }

  /** A neighbor line: neither a top nor a bottom line. */
  predicate IsMainLine(line: string) {
    !IsTopLine(line) && !StartsWith(line, CapabilityMarker) && !StartsWith(line, DeviceIdMarker)
  }

  /** The last top line, if any: each one found replaces the one before. */
  function LastTop(lines: seq<string>): Option<string> {
    LastWhere(IsTopLine, lines)
  }

  /**
   * The loop that separates special lines: `top` keeps the last top line,
   * `bottom` and `main` collect the other lines in input order.
   */
  method SplitSpecialLines(merged: seq<string>) returns (top: Option<string>, bottom: seq<string>, main: seq<string>)
    ensures top == LastTop(merged)
    ensures bottom == Filter(IsBottomLine, merged)
    ensures main == Filter(IsMainLine, merged)
  {
    top, bottom, main := None, [], [];
    for i := 0 to |merged|
      invariant top == LastTop(merged[..i])
      invariant bottom == Filter(IsBottomLine, merged[..i])
      invariant main == Filter(IsMainLine, merged[..i])
    {
      var line := merged[i];
      assert merged[..i + 1] == merged[..i] + [line];
      FilterSnoc(IsBottomLine, merged[..i], line);
      FilterSnoc(IsMainLine, merged[..i], line);
      if StartsWith(line, TopMarker) {
        top := Some(line);
      } else if StartsWith(line, CapabilityMarker) || StartsWith(line, DeviceIdMarker) {
        bottom := bottom + [line];
      } else {
        main := main + [line];
      }
    }
    assert merged[..|merged|] == merged;
  }

  /**
   * The kept top line is a top line of the input that no later line
   * replaces, and there is none exactly when no line is a top line.
   */
  lemma LastTopIsLast(lines: seq<string>)
    ensures LastTop(lines).None? <==> forall i :: 0 <= i < |lines| ==> !IsTopLine(lines[i])
    ensures LastTop(lines).Some? ==>
              exists i :: 0 <= i < |lines| && lines[i] == LastTop(lines).value && IsTopLine(lines[i])
                          && forall j :: i < j < |lines| ==> !IsTopLine(lines[j])
  {
    LastWhereIsLast(IsTopLine, lines);
  }

  /** Main lines alone leave the top line unset. */
  lemma NoTopAmongMainLines(lines: seq<string>)
    requires forall i :: 0 <= i < |lines| ==> IsMainLine(lines[i])
    ensures LastTop(lines) == None
  {
    LastTopIsLast(lines);
  }

  /**
   * Every logical line is the top candidate, a bottom line or a main line,
   * and exactly one of the three.
   */
  lemma {:induction false} SpecialSplitPartition(lines: seq<string>)
    ensures |Filter(IsTopLine, lines)| + |Filter(IsBottomLine, lines)| + |Filter(IsMainLine, lines)| == |lines|
    ensures multiset(Filter(IsTopLine, lines)) + multiset(Filter(IsBottomLine, lines))
            + multiset(Filter(IsMainLine, lines)) == multiset(lines)
    decreases |lines|
  {
    if lines != [] {
      SpecialSplitPartition(lines[1..]);
      assert lines == [lines[0]] + lines[1..];
    }
  }

  // ---------------------------------------------------------------------
  // Categories of neighbor lines

  datatype Category = Sav | Uplink | Wap | Phone | Unsorted

  /** The keyword groups in the order they are tried, each with the category it selects. */
  const KeywordGroups: seq<(Category, seq<string>)> :=
    [(Sav, SavKeywords), (Uplink, UplinkKeywords), (Wap, WapModels), (Phone, [PhoneKeyword])]

  /** The category of the first group in `groups` with a keyword in `line`; unsorted when none has. */
  function ClassifyWith(groups: seq<(Category, seq<string>)>, line: string): Category
    decreases |groups|
  {
    if groups == [] then Unsorted
    else if ContainsAny(line, groups[0].1) then groups[0].0
    else ClassifyWith(groups[1..], line)
  }

  /** The category of a neighbor line: the first keyword group, in the order sav, uplink, WAP, phone, that it contains. */
  function Classify(line: string): Category {
    ClassifyWith(KeywordGroups, line)
  }

  /**
   * `ClassifyWith` picks the first group that matches: category `c` is chosen
   * exactly when some group of `c` has a keyword in the line and no earlier
   * group has, and unsorted is chosen when no group has.
   */
  lemma {:induction false} ClassifyWithFirstMatch(groups: seq<(Category, seq<string>)>, line: string, c: Category)
    requires c != Unsorted
    requires forall i :: 0 <= i < |groups| ==> groups[i].0 != Unsorted
    ensures ClassifyWith(groups, line) == c <==>
              exists i :: 0 <= i < |groups| && groups[i].0 == c && ContainsAny(line, groups[i].1)
                          && forall j :: 0 <= j < i ==> !ContainsAny(line, groups[j].1)
    ensures ClassifyWith(groups, line) == Unsorted <==> forall i :: 0 <= i < |groups| ==> !ContainsAny(line, groups[i].1)
    decreases |groups|
  {
    if groups != [] {
      var tail := groups[1..];
      assert forall k :: 0 <= k < |tail| ==> tail[k] == groups[k + 1];
      ClassifyWithFirstMatch(tail, line, c);
      if ClassifyWith(groups, line) == c && !ContainsAny(line, groups[0].1) {
        var k :| 0 <= k < |tail| && tail[k].0 == c && ContainsAny(line, tail[k].1)
                 && forall j :: 0 <= j < k ==> !ContainsAny(line, tail[j].1);
        assert forall j :: 0 <= j < k + 1 ==> !ContainsAny(line, groups[j].1) by {
          forall j | 0 <= j < k + 1 ensures !ContainsAny(line, groups[j].1) {
            if j > 0 { assert groups[j] == tail[j - 1]; }
          }
        }
      }
      if !ContainsAny(line, groups[0].1)
         && exists i :: 0 <= i < |groups| && groups[i].0 == c && ContainsAny(line, groups[i].1)
                        && forall j :: 0 <= j < i ==> !ContainsAny(line, groups[j].1) {
        var i :| 0 <= i < |groups| && groups[i].0 == c && ContainsAny(line, groups[i].1)
                 && forall j :: 0 <= j < i ==> !ContainsAny(line, groups[j].1);
        assert i > 0;
        assert tail[i - 1] == groups[i];
        assert forall j :: 0 <= j < i - 1 ==> !ContainsAny(line, tail[j].1) by {
          forall j | 0 <= j < i - 1 ensures !ContainsAny(line, tail[j].1) {
            assert tail[j] == groups[j + 1];
          }
        }
      }
      if ClassifyWith(groups, line) == Unsorted {
        assert !ContainsAny(line, groups[0].1);
      }
    }
  }

  /** The phone group holds the one keyword "T33". */
  lemma PhoneGroup(line: string)
    ensures ContainsAny(line, [PhoneKeyword]) <==> Contains(line, PhoneKeyword)
  {
    assert PhoneKeyword in [PhoneKeyword];
  }

  /**
   * Each category is chosen exactly when its keyword group matches and no
   * earlier group does; a line that matches none is unsorted.
   */
  lemma ClassifyFirstMatch(line: string)
    ensures Classify(line) == Sav <==> ContainsAny(line, SavKeywords)
    ensures Classify(line) == Uplink <==> !ContainsAny(line, SavKeywords) && ContainsAny(line, UplinkKeywords)
    ensures Classify(line) == Wap <==> !ContainsAny(line, SavKeywords) && !ContainsAny(line, UplinkKeywords)
                                       && ContainsAny(line, WapModels)
    ensures Classify(line) == Phone <==> !ContainsAny(line, SavKeywords) && !ContainsAny(line, UplinkKeywords)
                                         && !ContainsAny(line, WapModels) && Contains(line, PhoneKeyword)
    ensures Classify(line) == Unsorted <==> !ContainsAny(line, SavKeywords) && !ContainsAny(line, UplinkKeywords)
                                            && !ContainsAny(line, WapModels) && !Contains(line, PhoneKeyword)
  {
    var g0 := KeywordGroups;
    var g1, g2, g3 := g0[1..], g0[2..], g0[3..];
    assert g0[1..][1..] == g2 && g2[1..] == g3 && g3[1..] == [];
    assert g0[0] == (Sav, SavKeywords) && g1[0] == (Uplink, UplinkKeywords);
    assert g2[0] == (Wap, WapModels) && g3[0] == (Phone, [PhoneKeyword]);
    assert ClassifyWith(g3, line) == if ContainsAny(line, [PhoneKeyword]) then Phone else Unsorted;
    assert ClassifyWith(g2, line) == if ContainsAny(line, WapModels) then Wap else ClassifyWith(g3, line);
    assert ClassifyWith(g1, line) == if ContainsAny(line, UplinkKeywords) then Uplink else ClassifyWith(g2, line);
    PhoneGroup(line);
  }

  /** The test "belongs to category `c`". */
  function InCategory(c: Category): string -> bool {
    line => Classify(line) == c
  }

  /** The lines of category `c`, in input order. */
  function Bucket(lines: seq<string>, c: Category): seq<string> {
    Filter(InCategory(c), lines)
  }

  /** One more line goes to the end of its own category's bucket and leaves the others unchanged. */
  lemma BucketSnoc(lines: seq<string>, line: string)
    ensures forall c :: Bucket(lines + [line], c) == Bucket(lines, c) + (if Classify(line) == c then [line] else [])
  {
    forall c ensures Bucket(lines + [line], c) == Bucket(lines, c) + (if Classify(line) == c then [line] else []) {
      FilterSnoc(InCategory(c), lines, line);
    }
  }

  /** The classification loop's body: the first keyword group the line holds picks its list. */
  method SortLine(line: string, sav: seq<string>, uplinks: seq<string>, waps: seq<string>, phones: seq<string>,
                  unsorted: seq<string>)
    returns (sav': seq<string>, uplinks': seq<string>, waps': seq<string>, phones': seq<string>,
             unsorted': seq<string>)
    ensures sav' == sav + (if Classify(line) == Sav then [line] else [])
    ensures uplinks' == uplinks + (if Classify(line) == Uplink then [line] else [])
    ensures waps' == waps + (if Classify(line) == Wap then [line] else [])
    ensures phones' == phones + (if Classify(line) == Phone then [line] else [])
    ensures unsorted' == unsorted + (if Classify(line) == Unsorted then [line] else [])
  {
    sav', uplinks', waps', phones', unsorted' := sav, uplinks, waps, phones, unsorted;
    ClassifyFirstMatch(line);
    if ContainsAny(line, SavKeywords) {
      sav' := sav + [line];
    } else if ContainsAny(line, UplinkKeywords) {
      uplinks' := uplinks + [line];
    } else if ContainsAny(line, WapModels) {
      waps' := waps + [line];
    } else if Contains(line, PhoneKeyword) {
      phones' := phones + [line];
    } else {
      unsorted' := unsorted + [line];
    }
  }

  /** The classification loop: each main line is appended to the list of its category. */
  method ClassifyMainLines(main: seq<string>)
    returns (sav: seq<string>, uplinks: seq<string>, waps: seq<string>, phones: seq<string>, unsorted: seq<string>)
    ensures sav == Bucket(main, Sav) && uplinks == Bucket(main, Uplink) && waps == Bucket(main, Wap)
    ensures phones == Bucket(main, Phone) && unsorted == Bucket(main, Unsorted)
  {
    sav, uplinks, waps, phones, unsorted := [], [], [], [], [];
    for i := 0 to |main|
      invariant sav == Bucket(main[..i], Sav) && uplinks == Bucket(main[..i], Uplink)
      invariant waps == Bucket(main[..i], Wap) && phones == Bucket(main[..i], Phone)
      invariant unsorted == Bucket(main[..i], Unsorted)
    {
      assert main[..i + 1] == main[..i] + [main[i]];
      BucketSnoc(main[..i], main[i]);
      sav, uplinks, waps, phones, unsorted := SortLine(main[i], sav, uplinks, waps, phones, unsorted);
    }
    assert main[..|main|] == main;
  }

  /** A line is in a bucket exactly when it is a main line of that bucket's category. */
  lemma BucketMembers(lines: seq<string>, c: Category, line: string)
    ensures line in Bucket(lines, c) <==> line in lines && Classify(line) == c
  {
    FilterMembers(InCategory(c), lines);
  }

  /** The front line of `lines` goes to the bucket of its category and no other. */
  lemma BucketCons(lines: seq<string>, c: Category)
    requires lines != []
    ensures Bucket(lines, c) == (if Classify(lines[0]) == c then [lines[0]] else []) + Bucket(lines[1..], c)
  {
  }

  lemma BucketMultisetCons(lines: seq<string>, c: Category)
    requires lines != []
    ensures multiset(Bucket(lines, c)) == Share(lines[0], c) + multiset(Bucket(lines[1..], c))
  {
    BucketCons(lines, c);
  }

  /** The five buckets together are as long as the main lines. */
  lemma {:induction false} BucketSizes(lines: seq<string>)
    ensures |Bucket(lines, Sav)| + |Bucket(lines, Uplink)| + |Bucket(lines, Wap)|
            + |Bucket(lines, Phone)| + |Bucket(lines, Unsorted)| == |lines|
    decreases |lines|
  {
    if lines != [] {
      BucketSizes(lines[1..]);
      BucketCons(lines, Sav);
      BucketCons(lines, Uplink);
      BucketCons(lines, Wap);
      BucketCons(lines, Phone);
      BucketCons(lines, Unsorted);
    }
  }

  /** The multiset a single line contributes to bucket `c`. */
  function Share(x: string, c: Category): multiset<string> {
    if Classify(x) == c then multiset{x} else multiset{}
  }

  /** A line contributes to exactly one bucket. */
  lemma ShareOnce(x: string)
    ensures Share(x, Sav) + Share(x, Uplink) + Share(x, Wap) + Share(x, Phone) + Share(x, Unsorted) == multiset{x}
  {
  }

  /**
   * The five buckets split the main lines without loss or duplication:
   * together they hold each main line exactly as often as the input does.
   */
  lemma {:induction false} BucketsPartition(lines: seq<string>)
    ensures multiset(Bucket(lines, Sav)) + multiset(Bucket(lines, Uplink)) + multiset(Bucket(lines, Wap))
            + multiset(Bucket(lines, Phone)) + multiset(Bucket(lines, Unsorted)) == multiset(lines)
    decreases |lines|
  {
    if lines != [] {
      var x, rest := lines[0], lines[1..];
      BucketsPartition(rest);
      BucketMultisetCons(lines, Sav);
      BucketMultisetCons(lines, Uplink);
      BucketMultisetCons(lines, Wap);
      BucketMultisetCons(lines, Phone);
      BucketMultisetCons(lines, Unsorted);
      ShareOnce(x);
      assert lines == [x] + rest;
      assert multiset(lines) == multiset{x} + multiset(rest);
    }
  }

  // ---------------------------------------------------------------------
  // The report

  /** The entry-count line, or the placeholder when there is none (or it is empty), then two blank lines. */
  function TopSection(top: Option<string>): seq<string> {
    [if top.Some? && top.value != "" then top.value else TopPlaceholder, "", ""]
  }

  /** A heading, the section's lines or its placeholder, then the number of lines. */
  function CountedSection(heading: string, lines: seq<string>, placeholder: string, countHeading: string): seq<string> {
    [heading] + Body(lines, placeholder) + [CountLine(countHeading, |lines|)]
  }

  /** A heading, then the section's lines or its placeholder. */
  function Section(heading: string, lines: seq<string>, placeholder: string): seq<string> {
    [heading] + Body(lines, placeholder)
  }

  /** The sav, uplink and unsorted sections, which carry no count. */
  function PlainSections(sav: seq<string>, uplinks: seq<string>, unsorted: seq<string>): seq<string> {
    Section(SavHeading, sav, SavPlaceholder)
    + Section(UplinkHeading, uplinks, UplinkPlaceholder)
    + Section(UnsortedHeading, unsorted, UnsortedPlaceholder)
  }

  /** The legend/header lines, after three blank lines. */
  function BottomSection(bottom: seq<string>): seq<string> {
    ["", "", ""] + Body(bottom, BottomPlaceholder)
  }

  /** The report's lines, in the fixed section order, before they are joined. */
  function CdpLayout(top: Option<string>, waps: seq<string>, phones: seq<string>, sav: seq<string>,
                     uplinks: seq<string>, unsorted: seq<string>, bottom: seq<string>): seq<string>
  {
    TopSection(top)
    + CountedSection(WapHeading, waps, WapPlaceholder, WapCountHeading)
    + CountedSection(PhoneHeading, phones, PhonePlaceholder, PhoneCountHeading)
    + PlainSections(sav, uplinks, unsorted)
    + BottomSection(bottom)
  }

  /** The report of the logical lines `merged`. */
  function CdpReport(merged: seq<string>): seq<string> {
    var main := Filter(IsMainLine, merged);
    CdpLayout(LastTop(merged), Bucket(main, Wap), Bucket(main, Phone), Bucket(main, Sav),
              Bucket(main, Uplink), Bucket(main, Unsorted), Filter(IsBottomLine, merged))
  }

  /** One plain section: its heading, then its lines or its placeholder. */
  method AppendSection(sections: seq<string>, heading: string, lines: seq<string>, placeholder: string)
    returns (r: seq<string>)
    ensures r == sections + Section(heading, lines, placeholder)
  {
    r := sections + [heading];
    r := AppendBody(r, lines, placeholder);
  }

  /** One counted section: its heading, its lines or its placeholder, then the count line. */
  method AppendCountedSection(sections: seq<string>, heading: string, lines: seq<string>, placeholder: string,
                              countHeading: string)
    returns (r: seq<string>)
    ensures r == sections + CountedSection(heading, lines, placeholder, countHeading)
  {
    r := sections + [heading];
    r := AppendBody(r, lines, placeholder);
    r := r + [CountLine(countHeading, |lines|)];
  }

  /** Building `output_sections` by appends and extends, section by section. */
  method AssembleReport(top: Option<string>, waps: seq<string>, phones: seq<string>, sav: seq<string>,
                        uplinks: seq<string>, unsorted: seq<string>, bottom: seq<string>)
    returns (sections: seq<string>)
    ensures sections == CdpLayout(top, waps, phones, sav, uplinks, unsorted, bottom)
  {
    if top.Some? && top.value != "" {
      sections := [top.value];
    } else {
      sections := [TopPlaceholder];
    }
    sections := sections + ["", ""];
    assert sections == TopSection(top);
    sections := AppendCountedSection(sections, WapHeading, waps, WapPlaceholder, WapCountHeading);
    sections := AppendCountedSection(sections, PhoneHeading, phones, PhonePlaceholder, PhoneCountHeading);
    sections := AppendPlainSections(sections, sav, uplinks, unsorted);
    sections := AppendBottomSection(sections, bottom);
  }

  /** The SAV switch, uplink and unsorted sections, in that order. */
  method AppendPlainSections(sections: seq<string>, sav: seq<string>, uplinks: seq<string>, unsorted: seq<string>)
    returns (r: seq<string>)
    ensures r == sections + PlainSections(sav, uplinks, unsorted)
  {
    r := AppendSection(sections, SavHeading, sav, SavPlaceholder);
    r := AppendSection(r, UplinkHeading, uplinks, UplinkPlaceholder);
    r := AppendSection(r, UnsortedHeading, unsorted, UnsortedPlaceholder);
  }

  /** Three blank lines, then the bottom lines or their placeholder. */
  method AppendBottomSection(sections: seq<string>, bottom: seq<string>) returns (r: seq<string>)
    ensures r == sections + BottomSection(bottom)
  {
    r := sections + ["", "", ""];
    r := AppendBody(r, bottom, BottomPlaceholder);
  }

  /** `process_cdp_neighbors(raw_output)`. */
  method ProcessCdpNeighbors(raw: string) returns (report: string)
    ensures report == Join(CdpReport(Merged(SplitLines(raw))), "\n")
  {
    var merged := MergeWrappedLines(raw);
    var top, bottom, main := SplitSpecialLines(merged);
    var sav, uplinks, waps, phones, unsorted := ClassifyMainLines(main);
    var sections := AssembleReport(top, waps, phones, sav, uplinks, unsorted, bottom);
    report := Join(sections, "\n");
  }

  // ---------------------------------------------------------------------
  // Properties of the report

  /** A counted section: heading, body, and a count line that reads back as the number of lines. */
  lemma CountedSectionReports(heading: string, lines: seq<string>, placeholder: string, countHeading: string)
    ensures var sec := CountedSection(heading, lines, placeholder, countHeading);
            && |sec| == |Body(lines, placeholder)| + 2
            && sec[0] == heading
            && sec[1..|sec| - 1] == Body(lines, placeholder)
            && CountIn(countHeading, sec[|sec| - 1]) == Some(|lines|)
  {
    CountLineReports(countHeading, |lines|);
  }

  /** A counted section found at offset `at` of `r`, read line by line. */
  lemma CountedSectionAt(r: seq<string>, at: nat, heading: string, lines: seq<string>, placeholder: string,
                         countHeading: string)
    requires var sec := CountedSection(heading, lines, placeholder, countHeading);
             at + |sec| <= |r| && r[at..at + |sec|] == sec
    ensures var nb := |Body(lines, placeholder)|;
            && r[at] == heading
            && r[at + 1..at + 1 + nb] == Body(lines, placeholder)
            && CountIn(countHeading, r[at + 1 + nb]) == Some(|lines|)
  {
    var sec := CountedSection(heading, lines, placeholder, countHeading);
    CountedSectionReports(heading, lines, placeholder, countHeading);
    assert r[at] == sec[0];
    SliceOfSlice(r, at, at + |sec|, 1, |sec| - 1);
    assert r[at + |sec| - 1] == sec[|sec| - 1];
  }

  /**
   * The WAP section comes first after the three top lines: its heading, its
   * lines (or placeholder) and a count line that reports how many lines it
   * has, 0 included.
   */
  lemma LayoutWapSection(top: Option<string>, waps: seq<string>, phones: seq<string>, sav: seq<string>,
                         uplinks: seq<string>, unsorted: seq<string>, bottom: seq<string>)
    ensures var nw := |Body(waps, WapPlaceholder)|;
            var r := CdpLayout(top, waps, phones, sav, uplinks, unsorted, bottom);
            && |r| > 4 + nw
            && r[3] == WapHeading && r[4..4 + nw] == Body(waps, WapPlaceholder)
            && CountIn(WapCountHeading, r[4 + nw]) == Some(|waps|)
  {
    var ws := CountedSection(WapHeading, waps, WapPlaceholder, WapCountHeading);
    var ps := CountedSection(PhoneHeading, phones, PhonePlaceholder, PhoneCountHeading);
    ConcatPieces(TopSection(top), ws, ps, PlainSections(sav, uplinks, unsorted), BottomSection(bottom));
    var r := CdpLayout(top, waps, phones, sav, uplinks, unsorted, bottom);
    CountedSectionAt(r, 3, WapHeading, waps, WapPlaceholder, WapCountHeading);
  }

  /** The IP-phone section follows the WAP section: heading, body, then its count line. */
  lemma LayoutPhoneSection(top: Option<string>, waps: seq<string>, phones: seq<string>, sav: seq<string>,
                           uplinks: seq<string>, unsorted: seq<string>, bottom: seq<string>)
    ensures var nw, np := |Body(waps, WapPlaceholder)|, |Body(phones, PhonePlaceholder)|;
            var r := CdpLayout(top, waps, phones, sav, uplinks, unsorted, bottom);
            && |r| > 6 + nw + np
            && r[5 + nw] == PhoneHeading && r[6 + nw..6 + nw + np] == Body(phones, PhonePlaceholder)
            && CountIn(PhoneCountHeading, r[6 + nw + np]) == Some(|phones|)
  {
    var ws := CountedSection(WapHeading, waps, WapPlaceholder, WapCountHeading);
    var ps := CountedSection(PhoneHeading, phones, PhonePlaceholder, PhoneCountHeading);
    ConcatPieces(TopSection(top), ws, ps, PlainSections(sav, uplinks, unsorted), BottomSection(bottom));
    var r := CdpLayout(top, waps, phones, sav, uplinks, unsorted, bottom);
    CountedSectionAt(r, 3 + |ws|, PhoneHeading, phones, PhonePlaceholder, PhoneCountHeading);
  }

  /**
   * In the report, the WAP and phone sections list their lines (or
   * placeholder) and each is followed by a count line that reads back as
   * the number of lines in that category, 0 included. `waps` and `phones`
   * are only names for the WAP and phone buckets of `merged`, so this is a
   * fact about `merged` alone.
   */
  lemma CdpReportCounts(merged: seq<string>, waps: seq<string>, phones: seq<string>)
    requires waps == Bucket(Filter(IsMainLine, merged), Wap)
    requires phones == Bucket(Filter(IsMainLine, merged), Phone)
    ensures var nw := |Body(waps, WapPlaceholder)|;
            var np := |Body(phones, PhonePlaceholder)|;
            var r := CdpReport(merged);
            && |r| > 6 + nw + np
            && r[4..4 + nw] == Body(waps, WapPlaceholder)
            && CountIn(WapCountHeading, r[4 + nw]) == Some(|waps|)
            && r[6 + nw..6 + nw + np] == Body(phones, PhonePlaceholder)
            && CountIn(PhoneCountHeading, r[6 + nw + np]) == Some(|phones|)
  {
    var main := Filter(IsMainLine, merged);
    LayoutWapSection(LastTop(merged), waps, phones, Bucket(main, Sav),
                     Bucket(main, Uplink), Bucket(main, Unsorted), Filter(IsBottomLine, merged));
    LayoutPhoneSection(LastTop(merged), waps, phones, Bucket(main, Sav),
                       Bucket(main, Uplink), Bucket(main, Unsorted), Filter(IsBottomLine, merged));
  }

  /**
   * The first line is the last entry-count line of the input; when the input
   * has none, it is the "N/A" placeholder.
   */
  lemma CdpReportTop(merged: seq<string>)
    ensures (forall i :: 0 <= i < |merged| ==> !IsTopLine(merged[i])) ==> CdpReport(merged)[0] == TopPlaceholder
    ensures (exists i :: 0 <= i < |merged| && IsTopLine(merged[i])) ==>
              exists i :: 0 <= i < |merged| && CdpReport(merged)[0] == merged[i] && IsTopLine(merged[i])
                          && forall j :: i < j < |merged| ==> !IsTopLine(merged[j])
  {
    LastTopIsLast(merged);
    var top := LastTop(merged);
    if top.Some? {
      assert top.value[..|TopMarker|] == TopMarker;
    }
  }

  /** No line of `lines` is an entry-count line. */
  predicate NoTopLine(lines: seq<string>) {
    forall x :: x in lines ==> !IsTopLine(x)
  }

  /** A line that does not start with 'T' is not an entry-count line. */
  lemma FirstCharNotTop(line: string)
    requires line != [] && line[0] != 'T'
    ensures !IsTopLine(line)
  {
    assert TopMarker[0] == 'T';
  }

  /** A count line starts "Total n…", so it is not an entry-count line ("Total c…"). */
  lemma CountLineNotTop(heading: string, n: nat)
    requires |heading| > 6 && heading[6] == 'n'
    ensures !IsTopLine(CountLine(heading, n))
  {
    assert CountLine(heading, n)[6] == heading[6];
    assert TopMarker[6] == 'c';
  }

  /** A body of lines that are not entry-count lines, with such a placeholder, has none either. */
  lemma BodyNoTopLine(lines: seq<string>, placeholder: string)
    requires NoTopLine(lines) && !IsTopLine(placeholder)
    ensures NoTopLine(Body(lines, placeholder))
  {
  }

  /** Two pieces without entry-count lines make a whole without one. */
  lemma NoTopLineConcat(a: seq<string>, b: seq<string>)
    requires NoTopLine(a) && NoTopLine(b)
    ensures NoTopLine(a + b)
  {
    forall x | x in a + b ensures !IsTopLine(x) {
      assert x in a || x in b;
    }
  }

  /** None of the report's fixed lines is an entry-count line. */
  lemma FixedLinesNotTop()
    ensures !IsTopLine("")
    ensures !IsTopLine(WapHeading) && !IsTopLine(PhoneHeading) && !IsTopLine(SavHeading)
    ensures !IsTopLine(UplinkHeading) && !IsTopLine(UnsortedHeading)
    ensures !IsTopLine(WapPlaceholder) && !IsTopLine(PhonePlaceholder) && !IsTopLine(SavPlaceholder)
    ensures !IsTopLine(UplinkPlaceholder) && !IsTopLine(UnsortedPlaceholder) && !IsTopLine(BottomPlaceholder)
  {
    FirstCharNotTop(WapHeading);
    FirstCharNotTop(PhoneHeading);
    FirstCharNotTop(SavHeading);
    FirstCharNotTop(UplinkHeading);
    FirstCharNotTop(UnsortedHeading);
    FirstCharNotTop(WapPlaceholder);
    FirstCharNotTop(PhonePlaceholder);
    FirstCharNotTop(SavPlaceholder);
    FirstCharNotTop(UplinkPlaceholder);
    FirstCharNotTop(UnsortedPlaceholder);
    FirstCharNotTop(BottomPlaceholder);
  }

  /** A section whose heading, placeholder and lines are not entry-count lines has none. */
  lemma SectionNoTopLine(heading: string, lines: seq<string>, placeholder: string)
    requires !IsTopLine(heading) && !IsTopLine(placeholder) && NoTopLine(lines)
    ensures NoTopLine(Section(heading, lines, placeholder))
  {
    BodyNoTopLine(lines, placeholder);
    NoTopLineConcat([heading], Body(lines, placeholder));
  }

  /** The same for a counted section, whose count line starts "Total n…". */
  lemma CountedSectionNoTopLine(heading: string, lines: seq<string>, placeholder: string, countHeading: string)
    requires !IsTopLine(heading) && !IsTopLine(placeholder) && NoTopLine(lines)
    requires |countHeading| > 6 && countHeading[6] == 'n'
    ensures NoTopLine(CountedSection(heading, lines, placeholder, countHeading))
  {
    SectionNoTopLine(heading, lines, placeholder);
    CountLineNotTop(countHeading, |lines|);
    NoTopLineConcat(Section(heading, lines, placeholder), [CountLine(countHeading, |lines|)]);
  }

  /** The sav, uplink and unsorted sections hold no entry-count line when their lists hold none. */
  lemma PlainSectionsNoTopLine(sav: seq<string>, uplinks: seq<string>, unsorted: seq<string>)
    requires NoTopLine(sav) && NoTopLine(uplinks) && NoTopLine(unsorted)
    ensures NoTopLine(PlainSections(sav, uplinks, unsorted))
  {
    FixedLinesNotTop();
    SectionNoTopLine(SavHeading, sav, SavPlaceholder);
    SectionNoTopLine(UplinkHeading, uplinks, UplinkPlaceholder);
    SectionNoTopLine(UnsortedHeading, unsorted, UnsortedPlaceholder);
    NoTopLineConcat(Section(SavHeading, sav, SavPlaceholder), Section(UplinkHeading, uplinks, UplinkPlaceholder));
    NoTopLineConcat(Section(SavHeading, sav, SavPlaceholder) + Section(UplinkHeading, uplinks, UplinkPlaceholder),
                    Section(UnsortedHeading, unsorted, UnsortedPlaceholder));
  }

  /**
   * Past its first line, a layout holds no entry-count line when none of its
   * lists does: headings, placeholders, count lines and blank lines are not
   * entry-count lines.
   */
  lemma LayoutOnlyTopFirst(top: Option<string>, waps: seq<string>, phones: seq<string>, sav: seq<string>,
                           uplinks: seq<string>, unsorted: seq<string>, bottom: seq<string>)
    requires NoTopLine(waps) && NoTopLine(phones) && NoTopLine(sav)
    requires NoTopLine(uplinks) && NoTopLine(unsorted) && NoTopLine(bottom)
    ensures var r := CdpLayout(top, waps, phones, sav, uplinks, unsorted, bottom);
            NoTopLine(r[1..])
  {
    var ws := CountedSection(WapHeading, waps, WapPlaceholder, WapCountHeading);
    var ps := CountedSection(PhoneHeading, phones, PhonePlaceholder, PhoneCountHeading);
    var plain := PlainSections(sav, uplinks, unsorted);
    var bs := BottomSection(bottom);
    SectionsNoTopLine(waps, phones, sav, uplinks, unsorted, bottom);
    NoTopLineOfPieces(["", ""], ws, ps, plain, bs);
    TailOfPieces(TopSection(top), ws, ps, plain, bs);
    assert TopSection(top)[1..] == ["", ""];
  }

  /** Every section after the top one holds no entry-count line when none of the lists does. */
  lemma SectionsNoTopLine(waps: seq<string>, phones: seq<string>, sav: seq<string>,
                          uplinks: seq<string>, unsorted: seq<string>, bottom: seq<string>)
    requires NoTopLine(waps) && NoTopLine(phones) && NoTopLine(sav)
    requires NoTopLine(uplinks) && NoTopLine(unsorted) && NoTopLine(bottom)
    ensures NoTopLine(["", ""])
    ensures NoTopLine(CountedSection(WapHeading, waps, WapPlaceholder, WapCountHeading))
    ensures NoTopLine(CountedSection(PhoneHeading, phones, PhonePlaceholder, PhoneCountHeading))
    ensures NoTopLine(PlainSections(sav, uplinks, unsorted))
    ensures NoTopLine(BottomSection(bottom))
  {
    FixedLinesNotTop();
    CountedSectionNoTopLine(WapHeading, waps, WapPlaceholder, WapCountHeading);
    CountedSectionNoTopLine(PhoneHeading, phones, PhonePlaceholder, PhoneCountHeading);
    PlainSectionsNoTopLine(sav, uplinks, unsorted);
    BodyNoTopLine(bottom, BottomPlaceholder);
    NoTopLineConcat(["", "", ""], Body(bottom, BottomPlaceholder));
  }

  /** Five pieces without entry-count lines make a whole without one. */
  lemma NoTopLineOfPieces(a: seq<string>, b: seq<string>, c: seq<string>, d: seq<string>, e: seq<string>)
    requires NoTopLine(a) && NoTopLine(b) && NoTopLine(c) && NoTopLine(d) && NoTopLine(e)
    ensures NoTopLine(a + b + c + d + e)
  {
    NoTopLineConcat(a, b);
    NoTopLineConcat(a + b, c);
    NoTopLineConcat(a + b + c, d);
    NoTopLineConcat(a + b + c + d, e);
  }

  /** The lines of category `c` among the main lines hold no entry-count line. */
  lemma BucketNoTopLine(merged: seq<string>, c: Category)
    ensures NoTopLine(Bucket(Filter(IsMainLine, merged), c))
  {
    FilterMembers(IsMainLine, merged);
    FilterMembers(InCategory(c), Filter(IsMainLine, merged));
  }

  /**
   * Only the first report line can be an entry-count line: every earlier
   * "Total cdp entries displayed" line of the input is dropped.
   */
  lemma CdpReportKeepsOnlyLastTop(merged: seq<string>)
    ensures forall k :: 1 <= k < |CdpReport(merged)| ==> !IsTopLine(CdpReport(merged)[k])
  {
    var main := Filter(IsMainLine, merged);
    BucketNoTopLine(merged, Wap);
    BucketNoTopLine(merged, Phone);
    BucketNoTopLine(merged, Sav);
    BucketNoTopLine(merged, Uplink);
    BucketNoTopLine(merged, Unsorted);
    FilterMembers(IsBottomLine, merged);
    var r := CdpReport(merged);
    LayoutOnlyTopFirst(LastTop(merged), Bucket(main, Wap), Bucket(main, Phone), Bucket(main, Sav),
                       Bucket(main, Uplink), Bucket(main, Unsorted), Filter(IsBottomLine, merged));
    assert forall k :: 1 <= k < |r| ==> r[k] == r[1..][k - 1];
  }

  /**
   * The layout ends with three blank lines and then the legend/header lines
   * in input order, or the placeholder when there are none.
   */
  lemma LayoutBottom(top: Option<string>, waps: seq<string>, phones: seq<string>, sav: seq<string>,
                     uplinks: seq<string>, unsorted: seq<string>, bottom: seq<string>)
    ensures var b := Body(bottom, BottomPlaceholder);
            var r := CdpLayout(top, waps, phones, sav, uplinks, unsorted, bottom);
            && |r| >= |b| + 3
            && r[|r| - |b|..] == b
            && r[|r| - |b| - 3..|r| - |b|] == ["", "", ""]
  {
    var front := TopSection(top) + CountedSection(WapHeading, waps, WapPlaceholder, WapCountHeading)
                 + CountedSection(PhoneHeading, phones, PhonePlaceholder, PhoneCountHeading)
                 + PlainSections(sav, uplinks, unsorted);
    SuffixPieces(front, ["", "", ""], Body(bottom, BottomPlaceholder));
  }

  /**
   * The three-way split and the five buckets together count every logical
   * line once. This is about the lists, not the report: of the entry-count
   * lines, the report keeps only the last one.
   */
  lemma SpecialAndBucketsCoverLines(merged: seq<string>)
    ensures var main := Filter(IsMainLine, merged);
            |Filter(IsTopLine, merged)| + |Filter(IsBottomLine, merged)|
            + |Bucket(main, Sav)| + |Bucket(main, Uplink)| + |Bucket(main, Wap)|
            + |Bucket(main, Phone)| + |Bucket(main, Unsorted)| == |merged|
  {
    SpecialSplitPartition(merged);
    BucketSizes(Filter(IsMainLine, merged));
  }

  /** A line holding "CBS350" is a sav switch. */
  lemma ClassifySwitch(line: string)
    requires Contains(line, "CBS350")
    ensures Classify(line) == Sav
  {
    ClassifyFirstMatch(line);
    assert SavKeywords[3] == "CBS350";
  }

  /** A line holding "AIR-AP" and no sav or uplink keyword is a WAP. */
  lemma ClassifyAccessPoint(line: string)
    requires Contains(line, "AIR-AP")
    requires !ContainsAny(line, SavKeywords) && !ContainsAny(line, UplinkKeywords)
    ensures Classify(line) == Wap
  {
    ClassifyFirstMatch(line);
    assert WapModels[4] == "AIR-AP";
  }

  /** The buckets of two main lines. */
  lemma BucketOfTwo(x: string, y: string, c: Category)
    ensures Bucket([x, y], c) == (if Classify(x) == c then [x] else []) + (if Classify(y) == c then [y] else [])
  {
    BucketCons([x, y], c);
    assert [x, y][1..] == [y];
    BucketCons([y], c);
    assert [y][1..] == [];
  }

  /** A sav line followed by a WAP line: each is alone in its bucket, and no phone is found. */
  lemma BucketsOfSavAndWap(x: string, y: string)
    requires Classify(x) == Sav && Classify(y) == Wap
    ensures Bucket([x, y], Wap) == [y] && Bucket([x, y], Phone) == [] && Bucket([x, y], Sav) == [x]
  {
    BucketOfTwo(x, y, Wap);
    BucketOfTwo(x, y, Phone);
    BucketOfTwo(x, y, Sav);
  }

  /** The two neighbor lines of the switch-and-access-point example go to the sav and WAP buckets. */
  lemma SwitchAndAccessPointBuckets(switch: string, ap: string)
    requires IsMainLine(switch) && IsMainLine(ap)
    requires Classify(switch) == Sav && Classify(ap) == Wap
    ensures var main := Filter(IsMainLine, [switch, ap]);
            && main == [switch, ap]
            && Bucket(main, Wap) == [ap] && Bucket(main, Phone) == []
            && Bucket(main, Sav) == [switch]
  {
    FilterAll(IsMainLine, [switch, ap]);
    BucketsOfSavAndWap(switch, ap);
  }

  /** The opening lines of a layout with one WAP, no phone and one sav switch. */
  lemma LayoutSwitchAndAccessPoint(switch: string, ap: string, uplinks: seq<string>, unsorted: seq<string>,
                                   bottom: seq<string>)
    ensures var r := CdpLayout(None, [ap], [], [switch], uplinks, unsorted, bottom);
            && |r| > 10
            && r[0] == TopPlaceholder
            && r[3..6] == [WapHeading, ap, CountLine(WapCountHeading, 1)]
            && r[9..11] == [SavHeading, switch]
  {
    var r := CdpLayout(None, [ap], [], [switch], uplinks, unsorted, bottom);
    var ws := CountedSection(WapHeading, [ap], WapPlaceholder, WapCountHeading);
    var ps := CountedSection(PhoneHeading, [], PhonePlaceholder, PhoneCountHeading);
    var plain := PlainSections([switch], uplinks, unsorted);
    ConcatPieces(TopSection(None), ws, ps, plain, BottomSection(bottom));
    assert ws == [WapHeading, ap, CountLine(WapCountHeading, 1)];
    assert |ps| == 3;
    assert r[..3] == TopSection(None);
    assert r[3..6] == ws;
    assert r[9..9 + |plain|] == plain;
    assert plain[..2] == [SavHeading, switch];
  }

  /**
   * Two neighbor lines, a CBS350 switch and an AIR-AP access point, with no
   * entry-count line: the report opens with the "N/A" placeholder, lists the
   * access point as the only WAP with a count of 1, and lists the switch
   * under the sav switches.
   */
  lemma ScenarioSwitchAndAccessPoint(switch: string, ap: string)
    requires IsTrimmed(switch) && IsTrimmed(ap) && '\n' !in switch && '\n' !in ap
    requires IsMainLine(switch) && IsMainLine(ap)
    requires Contains(switch, "CBS350") && Contains(ap, "AIR-AP")
    requires !ContainsAny(ap, SavKeywords) && !ContainsAny(ap, UplinkKeywords)
    ensures var r := CdpReport(Merged(SplitLines(Join([switch, ap], "\n"))));
            && |r| > 10
            && r[0] == TopPlaceholder
            && r[3..6] == [WapHeading, ap, CountLine(WapCountHeading, 1)]
            && r[9..11] == [SavHeading, switch]
  {
    SplitLinesJoin([switch, ap]);
    MergedTwoRecords(switch, ap);
    ClassifySwitch(switch);
    ClassifyAccessPoint(ap);
    ReportOfSwitchAndAccessPoint(switch, ap);
  }

  /** The report of a sav line followed by a WAP line. */
  lemma ReportOfSwitchAndAccessPoint(switch: string, ap: string)
    requires IsMainLine(switch) && IsMainLine(ap)
    requires Classify(switch) == Sav && Classify(ap) == Wap
    ensures var r := CdpReport([switch, ap]);
            && |r| > 10
            && r[0] == TopPlaceholder
            && r[3..6] == [WapHeading, ap, CountLine(WapCountHeading, 1)]
            && r[9..11] == [SavHeading, switch]
  {
    var merged := [switch, ap];
    SwitchAndAccessPointBuckets(switch, ap);
    NoTopAmongMainLines(merged);
    LayoutSwitchAndAccessPoint(switch, ap, Bucket(merged, Uplink), Bucket(merged, Unsorted),
                               Filter(IsBottomLine, merged));
  }
}
