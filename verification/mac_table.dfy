/**
 * The MAC address table report: the trunk ports named by `show int trunk`,
 * in their short and long spellings, decide which MAC address entries were
 * learned remotely (through a trunk) and which locally.
 */
module MacTable {
  import opened Wrappers
  import opened Seqs
  import opened Text
  import opened Report

  // ---------------------------------------------------------------------
  // Interface names

  /** Short interface prefixes and their long names, in the order they are tried. */
  const PrefixTable: seq<(string, string)> :=
    [("Po", "Port-channel"), ("Gi", "GigabitEthernet"), ("Te", "TenGigabitEthernet"), ("Fa", "FastEthernet")]

  /**
   * The first entry of `table` whose short prefix starts `name` replaces
   * that prefix with its long name; with no such entry the name is kept.
   */
  function NormalizeWith(table: seq<(string, string)>, name: string): string
    decreases |table|
  {
    if table == [] then name
    else if StartsWith(name, table[0].0) then table[0].1 + name[|table[0].0|..]
    else NormalizeWith(table[1..], name)
  }

  /** When no entry's short prefix starts the name, the name is kept. */
  lemma {:induction false} NormalizeWithNoMatch(table: seq<(string, string)>, name: string)
    requires forall i :: 0 <= i < |table| ==> !StartsWith(name, table[i].0)
    ensures NormalizeWith(table, name) == name
    decreases |table|
  {
    if table != [] {
      assert forall i :: 0 <= i < |table[1..]| ==> table[1..][i] == table[i + 1];
      NormalizeWithNoMatch(table[1..], name);
    }
  }

  /** The first entry whose short prefix starts the name decides: its long name replaces the prefix. */
  lemma {:induction false} NormalizeWithFirstMatch(table: seq<(string, string)>, name: string, i: nat)
    requires i < |table| && StartsWith(name, table[i].0)
    requires forall j :: 0 <= j < i ==> !StartsWith(name, table[j].0)
    ensures NormalizeWith(table, name) == table[i].1 + name[|table[i].0|..]
    decreases i
  {
    if i > 0 {
      assert table[1..][i - 1] == table[i];
      assert forall j :: 0 <= j < i - 1 ==> table[1..][j] == table[j + 1];
      NormalizeWithFirstMatch(table[1..], name, i - 1);
    }
  }

  /**
   * `normalize_interface_name(interface)`: the mapping is tried in the order
   * "Po", "Gi", "Te", "Fa". A name starting with one of them gets the long
   * name in place of those two letters, keeping the rest; any other name is
   * returned unchanged.
   */
  function NormalizeInterfaceName(name: string): (r: string)
    ensures StartsWith(name, "Po") ==> r == "Port-channel" + name[2..]
    ensures StartsWith(name, "Gi") ==> r == "GigabitEthernet" + name[2..]
    ensures StartsWith(name, "Te") ==> r == "TenGigabitEthernet" + name[2..]
    ensures StartsWith(name, "Fa") ==> r == "FastEthernet" + name[2..]
    ensures (!StartsWith(name, "Po") && !StartsWith(name, "Gi") && !StartsWith(name, "Te")
             && !StartsWith(name, "Fa")) ==> r == name
  {
    ShortPrefixesExclusive(name);
    var t := PrefixTable;
    if StartsWith(name, "Po") then
      NormalizeWithFirstMatch(t, name, 0);
      NormalizeWith(t, name)
    else if StartsWith(name, "Gi") then
      NormalizeWithFirstMatch(t, name, 1);
      NormalizeWith(t, name)
    else if StartsWith(name, "Te") then
      NormalizeWithFirstMatch(t, name, 2);
      NormalizeWith(t, name)
    else if StartsWith(name, "Fa") then
      NormalizeWithFirstMatch(t, name, 3);
      NormalizeWith(t, name)
    else
      NormalizeWithNoMatch(t, name);
      NormalizeWith(t, name)
  }

  /** A name starts with at most one of the short prefixes. */
  lemma ShortPrefixesExclusive(name: string)
    ensures StartsWith(name, "Po") ==> !StartsWith(name, "Gi") && !StartsWith(name, "Te") && !StartsWith(name, "Fa")
    ensures StartsWith(name, "Gi") ==> !StartsWith(name, "Te") && !StartsWith(name, "Fa")
    ensures StartsWith(name, "Te") ==> !StartsWith(name, "Fa")
  {
    if |name| >= 2 {
      assert StartsWith(name, "Po") ==> name[0] == 'P';
      assert StartsWith(name, "Gi") ==> name[0] == 'G';
      assert StartsWith(name, "Te") ==> name[0] == 'T';
      assert StartsWith(name, "Fa") ==> name[0] == 'F';
    }
  }

  /** The three conversions the function's documentation gives. */
  lemma NormalizeExamples()
    ensures NormalizeInterfaceName("Po1") == "Port-channel1"
    ensures NormalizeInterfaceName("Gi8/1") == "GigabitEthernet8/1"
    ensures NormalizeInterfaceName("Te2/1") == "TenGigabitEthernet2/1"
  {
    assert StartsWith("Po1", "Po");
    assert "Po1"[2..] == "1";
    assert "Port-channel" + "1" == "Port-channel1";
    assert StartsWith("Gi8/1", "Gi");
    assert "Gi8/1"[2..] == "8/1";
    assert "GigabitEthernet" + "8/1" == "GigabitEthernet8/1";
    assert StartsWith("Te2/1", "Te");
    assert "Te2/1"[2..] == "2/1";
    assert "TenGigabitEthernet" + "2/1" == "TenGigabitEthernet2/1";
  }

  /** A name made of "Po" and any rest becomes "Port-channel" and that rest. */
  lemma NormalizePortChannel(rest: string)
    ensures NormalizeInterfaceName("Po" + rest) == "Port-channel" + rest
  {
    var name := "Po" + rest;
    assert name[..2] == "Po";
    NormalizeWithFirstMatch(PrefixTable, name, 0);
    assert name[2..] == rest;
  }

  /**
   * Normalizing is not idempotent: a long port-channel name still starts
   * with "Po", so normalizing it again rewrites it.
   */
  lemma NormalizeNotIdempotent()
    ensures NormalizeInterfaceName("Port-channel1") == "Port-channelrt-channel1"
    ensures NormalizeInterfaceName(NormalizeInterfaceName("Po1")) != NormalizeInterfaceName("Po1")
  {
    NormalizePortChannel("1");
    assert "Po" + "1" == "Po1";
    assert "Port-channel" + "1" == "Port-channel1";
    NormalizePortChannel("rt-channel1");
    assert "Po" + "rt-channel1" == "Port-channel1";
    assert "Port-channel" + "rt-channel1" == "Port-channelrt-channel1";
  }

  // ---------------------------------------------------------------------
  // Trunk ports

  /** The column-header line of `show int trunk`: its text starts with "Port". */
  predicate IsPortHeader(line: string) {
    StartsWith(Strip(line), "Port")
  }

  /** `line.split()[0]`, for a line that is not blank. */
  function FirstField(line: string): string {
    if IsBlank(line) then "" else FirstToken(line)
  }

  /**
   * The trunk ports: the first fields of the non-blank lines after the first
   * header line; none when there is no header.
   */
  function TrunkInterfaces(lines: seq<string>): seq<string> {
    CollectAfter(IsPortHeader, NotBlank, FirstField, lines)
  }

  /** `get_trunk_interfaces(raw_trunk_output)`. */
  method GetTrunkInterfaces(raw: string) returns (trunks: seq<string>)
    ensures trunks == TrunkInterfaces(SplitLines(raw))
  {
    var lines := SplitLines(raw);
    trunks := [];
    var headerFound := false;
    for i := 0 to |lines|
      invariant CollectScan(IsPortHeader, NotBlank, FirstField, lines[..i]) == Collecting(headerFound, trunks)
    {
      var line := lines[i];
      assert lines[..i + 1][..i] == lines[..i];
      if !headerFound {
        if StartsWith(Strip(line), "Port") {
          headerFound := true;
        }
        continue;
      }
      if Strip(line) == [] {
        continue;
      }
      var parts := Tokens(line);
      TokensEmpty(line);
      if parts != [] {
        trunks := trunks + [parts[0]];
      }
    }
    assert lines[..|lines|] == lines;
    CollectScanMeaning(IsPortHeader, NotBlank, FirstField, lines);
  }

  /** Without a header line there are no trunk ports. */
  lemma TrunkWithoutHeader(lines: seq<string>)
    requires forall j :: 0 <= j < |lines| ==> !IsPortHeader(lines[j])
    ensures TrunkInterfaces(lines) == []
  {
    CollectAfterNoStart(IsPortHeader, NotBlank, FirstField, lines);
  }

  /** Empty `show int trunk` output names no trunk ports. */
  lemma TrunkOfEmptyOutput()
    ensures TrunkInterfaces(SplitLines("")) == []
  {
  }

  /**
   * The lines up to and including the first header contribute nothing: the
   * trunk ports are the first fields of the non-blank lines after it.
   */
  lemma TrunkAfterPreamble(preamble: seq<string>, header: string, rest: seq<string>)
    requires forall j :: 0 <= j < |preamble| ==> !IsPortHeader(preamble[j])
    requires IsPortHeader(header)
    ensures TrunkInterfaces(preamble + [header] + rest) == Map(FirstField, Filter(NotBlank, rest))
  {
    CollectAfterPreamble(IsPortHeader, NotBlank, FirstField, preamble, header, rest);
  }

  /**
   * One trunk port per non-blank line after the header, each a single
   * field: a name is listed exactly when some such line begins with it.
   */
  lemma TrunkPortsAreFirstFields(rest: seq<string>)
    ensures var ports := Map(FirstField, Filter(NotBlank, rest));
            && |ports| == |Filter(NotBlank, rest)|
            && (forall t :: t in ports ==> IsWord(t))
            && (forall t :: t in ports <==> exists line :: line in rest && !IsBlank(line) && FirstToken(line) == t)
  {
    var after := Filter(NotBlank, rest);
    var ports := Map(FirstField, after);
    FilterMembers(NotBlank, rest);
    forall t | t in ports ensures IsWord(t) && exists line :: line in rest && !IsBlank(line) && FirstToken(line) == t {
      var k :| 0 <= k < |after| && t == FirstField(after[k]);
      assert after[k] in after;
    }
    forall t | (exists line :: line in rest && !IsBlank(line) && FirstToken(line) == t)
      ensures t in ports
    {
      var line :| line in rest && !IsBlank(line) && FirstToken(line) == t;
      assert line in after;
      var k :| 0 <= k < |after| && after[k] == line;
      assert ports[k] == t;
    }
  }

  // ---------------------------------------------------------------------
  // MAC address entries

  const HeaderKeywords := ["Mac Address", "Vlan", "----"]
  const CpuKeyword := "CPU"
  const LocalHeading := "local mac addresses:"
  const LocalPlaceholder := "No local mac addresses found."
  const RemoteHeading := "\nremotely learned mac addresses:"
  const RemotePlaceholder := "No remotely learned mac addresses found."

  /** The trunk names in both spellings: as listed and normalized. */
  function TrunkCheckSet(trunks: seq<string>): (r: set<string>)
    ensures forall t :: t in trunks ==> t in r && NormalizeInterfaceName(t) in r
    ensures forall x :: x in r ==> x in trunks || exists t :: t in trunks && NormalizeInterfaceName(t) == x
  {
    (set t | t in trunks) + (set t | t in trunks :: NormalizeInterfaceName(t))
  }

  /** An entry line: neither a header/separator line nor a CPU entry. */
  predicate IsMacDataLine(line: string) {
    !ContainsAny(line, HeaderKeywords) && !Contains(line, CpuKeyword)
  }

  /** An entry whose port, its last field, is a trunk name. */
  function IsRemoteIn(checkSet: set<string>): string -> bool {
    line => !IsBlank(line) && LastToken(line) in checkSet
  }

  /** An entry whose port, its last field, is not a trunk name. */
  function IsLocalIn(checkSet: set<string>): string -> bool {
    line => !IsBlank(line) && LastToken(line) !in checkSet
  }

  /** The entry lines of `show mac address-table` output, in order. */
  function MacDataLines(rawMac: string): (r: seq<string>)
    ensures |r| <= |SplitLines(rawMac)|
    ensures forall line :: line in r ==> line in SplitLines(rawMac) && !IsBlank(line) && IsMacDataLine(line)
  {
    FilterMembers(NotBlank, SplitLines(rawMac));
    FilterMembers(IsMacDataLine, Filter(NotBlank, SplitLines(rawMac)));
    Filter(IsMacDataLine, Filter(NotBlank, SplitLines(rawMac)))
  }

  /**
   * The report's lines: the local section first, then the remote one. No
   * entry is lost; besides the entries there are the two headings and a
   * placeholder for each empty section.
   */
  function MacLayout(local: seq<string>, remote: seq<string>): (r: seq<string>)
    ensures multiset(local) + multiset(remote) <= multiset(r)
    ensures |r| == |local| + |remote| + 2 + (if local == [] then 1 else 0) + (if remote == [] then 1 else 0)
  {
    [LocalHeading] + Body(local, LocalPlaceholder) + [RemoteHeading] + Body(remote, RemotePlaceholder)
  }

  /** The report for the two command outputs. */
  function MacReport(rawMac: string, rawTrunk: string): seq<string> {
    var checkSet := TrunkCheckSet(TrunkInterfaces(SplitLines(rawTrunk)));
    var data := MacDataLines(rawMac);
    MacLayout(Filter(IsLocalIn(checkSet), data), Filter(IsRemoteIn(checkSet), data))
  }

  /** The loop that drops header, separator and CPU lines. */
  method SelectDataLines(lines: seq<string>) returns (data: seq<string>)
    ensures data == Filter(IsMacDataLine, lines)
  {
    data := [];
    for i := 0 to |lines|
      invariant data == Filter(IsMacDataLine, lines[..i])
    {
      var line := lines[i];
      assert lines[..i + 1] == lines[..i] + [line];
      FilterSnoc(IsMacDataLine, lines[..i], line);
      if ContainsAny(line, HeaderKeywords) {
        continue;
      }
      if Contains(line, CpuKeyword) {
        continue;
      }
      data := data + [line];
    }
    assert lines[..|lines|] == lines;
  }

  /** `parts = line.split()`, then `parts[-1]` unless there are no parts. */
  method LastField(line: string) returns (port: Option<string>)
    ensures port.None? <==> IsBlank(line)
    ensures port.Some? ==> port.value == LastToken(line) && IsWord(port.value)
  {
    var parts := Tokens(line);
    TokensEmpty(line);
    if parts == [] {
      return None;
    }
    port := Some(parts[|parts| - 1]);
  }

  /** One turn of the routing loop: a blank line is skipped, any other goes to the list its last field picks. */
  method RouteEntry(checkSet: set<string>, line: string, local: seq<string>, remote: seq<string>)
    returns (local': seq<string>, remote': seq<string>)
    ensures local' == local + (if IsLocalIn(checkSet)(line) then [line] else [])
    ensures remote' == remote + (if IsRemoteIn(checkSet)(line) then [line] else [])
  {
    local', remote' := local, remote;
    var port := LastField(line);
    if port.None? {
      return;
    }
    if port.value in checkSet {
      remote' := remote + [line];
    } else {
      local' := local + [line];
    }
  }

  /** The loop that sends each entry to the local or the remote list by its last field. */
  method SplitByPort(data: seq<string>, checkSet: set<string>) returns (local: seq<string>, remote: seq<string>)
    ensures local == Filter(IsLocalIn(checkSet), data)
    ensures remote == Filter(IsRemoteIn(checkSet), data)
  {
    local, remote := [], [];
    for i := 0 to |data|
      invariant local == Filter(IsLocalIn(checkSet), data[..i])
      invariant remote == Filter(IsRemoteIn(checkSet), data[..i])
    {
      assert data[..i + 1] == data[..i] + [data[i]];
      FilterSnoc(IsLocalIn(checkSet), data[..i], data[i]);
      FilterSnoc(IsRemoteIn(checkSet), data[..i], data[i]);
      local, remote := RouteEntry(checkSet, data[i], local, remote);
    }
    assert data[..|data|] == data;
  }

  /** `process_mac_address_table(raw_mac_output, raw_trunk_output)`. */
  method ProcessMacAddressTable(rawMac: string, rawTrunk: string) returns (report: string)
    ensures report == Join(MacReport(rawMac, rawTrunk), "\n")
  {
    var trunks := GetTrunkInterfaces(rawTrunk);
    var checkSet := TrunkCheckSet(trunks);
    var lines := Filter(NotBlank, SplitLines(rawMac));
    var data := SelectDataLines(lines);
    var local, remote := SplitByPort(data, checkSet);
    var sections := [LocalHeading];
    sections := AppendBody(sections, local, LocalPlaceholder);
    sections := sections + [RemoteHeading];
    sections := AppendBody(sections, remote, RemotePlaceholder);
    report := Join(sections, "\n");
  }

  // ---------------------------------------------------------------------
  // Properties of the MAC report

  /**
   * A line of the MAC output is kept as an entry exactly when it is not
   * blank and holds none of "Mac Address", "Vlan", "----" and "CPU".
   */
  lemma MacDataLineKept(rawMac: string, line: string)
    ensures line in MacDataLines(rawMac) <==>
              line in SplitLines(rawMac) && !IsBlank(line) && !ContainsAny(line, HeaderKeywords)
              && !Contains(line, CpuKeyword)
  {
    FilterMembers(NotBlank, SplitLines(rawMac));
    FilterMembers(IsMacDataLine, Filter(NotBlank, SplitLines(rawMac)));
  }

  /**
   * Local and remote split non-blank entries without loss or duplication:
   * their sizes add up and together they hold every entry as often as the
   * input does.
   */
  lemma LocalRemotePartition(checkSet: set<string>, data: seq<string>)
    requires forall line :: line in data ==> !IsBlank(line)
    ensures |Filter(IsLocalIn(checkSet), data)| + |Filter(IsRemoteIn(checkSet), data)| == |data|
    ensures multiset(Filter(IsLocalIn(checkSet), data)) + multiset(Filter(IsRemoteIn(checkSet), data))
            == multiset(data)
  {
    forall i | 0 <= i < |data| ensures IsRemoteIn(checkSet)(data[i]) == !IsLocalIn(checkSet)(data[i]) {
      assert data[i] in data;
    }
    FilterComplement(IsLocalIn(checkSet), IsRemoteIn(checkSet), data);
  }

  /**
   * An entry is reported as remotely learned exactly when its last field is
   * a trunk port as listed or as normalized; otherwise it is local.
   */
  lemma MacRemoteIff(rawMac: string, rawTrunk: string, line: string)
    ensures var trunks := TrunkInterfaces(SplitLines(rawTrunk));
            var checkSet := TrunkCheckSet(trunks);
            && (line in Filter(IsRemoteIn(checkSet), MacDataLines(rawMac)) <==>
                  line in MacDataLines(rawMac) && !IsBlank(line)
                  && (LastToken(line) in trunks
                      || exists t :: t in trunks && NormalizeInterfaceName(t) == LastToken(line)))
            && (line in Filter(IsLocalIn(checkSet), MacDataLines(rawMac)) <==>
                  line in MacDataLines(rawMac) && !IsBlank(line)
                  && !(LastToken(line) in trunks
                       || exists t :: t in trunks && NormalizeInterfaceName(t) == LastToken(line)))
  {
    var checkSet := TrunkCheckSet(TrunkInterfaces(SplitLines(rawTrunk)));
    FilterMembers(IsRemoteIn(checkSet), MacDataLines(rawMac));
    FilterMembers(IsLocalIn(checkSet), MacDataLines(rawMac));
  }

  /** With no trunk ports every entry is local, in input order, and none is remote. */
  lemma NoTrunksAllLocal(data: seq<string>)
    requires forall line :: line in data ==> !IsBlank(line)
    ensures Filter(IsLocalIn(TrunkCheckSet([])), data) == data
    ensures Filter(IsRemoteIn(TrunkCheckSet([])), data) == []
  {
    var checkSet := TrunkCheckSet([]);
    assert checkSet == {};
    forall i | 0 <= i < |data| ensures IsLocalIn(checkSet)(data[i]) && !IsRemoteIn(checkSet)(data[i]) {
      assert data[i] in data;
    }
    FilterAll(IsLocalIn(checkSet), data);
    FilterNone(IsRemoteIn(checkSet), data);
  }

  /** The local heading, the local entries or placeholder, the remote heading, then the remote entries or placeholder. */
  lemma MacLayoutSections(local: seq<string>, remote: seq<string>)
    ensures var nl := |Body(local, LocalPlaceholder)|;
            var r := MacLayout(local, remote);
            && |r| == nl + 1 + |Body(remote, RemotePlaceholder)| + 1
            && r[0] == LocalHeading
            && r[1..1 + nl] == Body(local, LocalPlaceholder)
            && r[1 + nl] == RemoteHeading
            && r[2 + nl..] == Body(remote, RemotePlaceholder)
  {
  }

  /** The report of a single remote entry. */
  lemma MacLayoutRemoteOnly(line: string)
    ensures MacLayout([], [line]) == [LocalHeading, LocalPlaceholder, RemoteHeading, line]
  {
    assert [LocalHeading] + [LocalPlaceholder] + [RemoteHeading] + [line] == [LocalHeading, LocalPlaceholder, RemoteHeading, line];
  }

  /** The report of a single local entry. */
  lemma MacLayoutLocalOnly(line: string)
    ensures MacLayout([line], []) == [LocalHeading, line, RemoteHeading, RemotePlaceholder]
  {
    assert [LocalHeading] + [line] + [RemoteHeading] + [RemotePlaceholder] == [LocalHeading, line, RemoteHeading, RemotePlaceholder];
  }

  // ---------------------------------------------------------------------
  // An entry on a trunk port

  /** A single MAC address entry line. */
  predicate IsLoneEntry(line: string) {
    '\n' !in line && !IsBlank(line) && IsMacDataLine(line)
  }

  /** `show int trunk` output made of a header line and one trunk line for `port`. */
  predicate IsTrunkListing(header: string, entry: string, port: string) {
    '\n' !in header && '\n' !in entry && IsPortHeader(header) && !IsBlank(entry) && FirstToken(entry) == port
  }

  /** MAC output made of one entry line holds that entry alone. */
  lemma MacLinesOfEntry(line: string)
    requires IsLoneEntry(line)
    ensures MacDataLines(line) == [line]
  {
    assert line != [];
    SplitLinesJoin([line]);
    assert Join([line], "\n") == line;
    FilterOne(NotBlank, line);
    FilterOne(IsMacDataLine, line);
  }

  /** Two lines without line ends, the last one non-empty, joined and split again. */
  lemma LinesOfPair(first: string, second: string)
    requires '\n' !in first && '\n' !in second && second != []
    ensures SplitLines(Join([first, second], "\n")) == [first, second]
  {
    SplitLinesJoin([first, second]);
  }

  /** A header followed by one trunk line names that line's port alone. */
  lemma TrunksOfListing(header: string, entry: string, port: string)
    requires IsTrunkListing(header, entry, port)
    ensures TrunkInterfaces(SplitLines(Join([header, entry], "\n"))) == [port]
  {
    LinesOfPair(header, entry);
    CollectAfterPair(IsPortHeader, NotBlank, FirstField, header, entry);
  }

  /** The report, given the entries and the trunk ports. */
  lemma MacReportOf(rawMac: string, rawTrunk: string, data: seq<string>, trunks: seq<string>)
    requires MacDataLines(rawMac) == data && TrunkInterfaces(SplitLines(rawTrunk)) == trunks
    ensures MacReport(rawMac, rawTrunk)
            == MacLayout(Filter(IsLocalIn(TrunkCheckSet(trunks)), data), Filter(IsRemoteIn(TrunkCheckSet(trunks)), data))
  {
  }

  /** A lone entry on a trunk port is remote. */
  lemma EntryOnTrunk(line: string, checkSet: set<string>)
    requires !IsBlank(line) && LastToken(line) in checkSet
    ensures Filter(IsRemoteIn(checkSet), [line]) == [line]
    ensures Filter(IsLocalIn(checkSet), [line]) == []
  {
    FilterOne(IsRemoteIn(checkSet), line);
    FilterOne(IsLocalIn(checkSet), line);
  }

  /** One entry whose port is the one trunk port: nothing local, the entry remote. */
  lemma LoneRemoteReport(rawMac: string, rawTrunk: string, line: string)
    requires !IsBlank(line) && MacDataLines(rawMac) == [line]
    requires TrunkInterfaces(SplitLines(rawTrunk)) == [LastToken(line)]
    ensures MacReport(rawMac, rawTrunk) == MacLayout([], [line])
  {
    var port := LastToken(line);
    MacReportOf(rawMac, rawTrunk, [line], [port]);
    var checkSet := TrunkCheckSet([port]);
    assert port in checkSet;
    EntryOnTrunk(line, checkSet);
  }

  /**
   * An entry whose port (for instance "Gi8/1") is listed under the trunk
   * header is reported as remotely learned.
   */
  lemma ScenarioTrunkPortRemote(line: string, header: string, entry: string)
    requires IsLoneEntry(line) && IsTrunkListing(header, entry, LastToken(line))
    ensures MacReport(line, Join([header, entry], "\n"))
            == [LocalHeading, LocalPlaceholder, RemoteHeading, line]
  {
    MacLinesOfEntry(line);
    TrunksOfListing(header, entry, LastToken(line));
    LoneRemoteReport(line, Join([header, entry], "\n"), line);
    MacLayoutRemoteOnly(line);
  }

  /** With empty trunk output the same entry is reported as local. */
  lemma ScenarioTrunkPortLocal(line: string)
    requires IsLoneEntry(line)
    ensures MacReport(line, "") == [LocalHeading, line, RemoteHeading, RemotePlaceholder]
  {
    MacLinesOfEntry(line);
    TrunkOfEmptyOutput();
    MacReportOf(line, "", [line], []);
    NoTrunksAllLocal([line]);
    MacLayoutLocalOnly(line);
  }
}
