# Switch swap-out checker: CDP neighbor and MAC address table reports

Before an access switch is swapped out, the checker collects the output of
`show cdp neighbors`, `show mac address-table` and `show int trunk` and turns
it into two readable reports. This project models those two report builders
and proves what they do.

**Line merging.** Terminal-wrapped command output is reassembled into
logical lines (`LineMerger`):
- a blank physical line is dropped;
- an indented line is glued onto the current logical line with one space;
- any other line starts a new logical line.

**CDP neighbor report** (`CdpNeighbors`):
- The last "Total cdp entries displayed" line goes on top, followed by two
  blank lines. When there is none, an "N/A" placeholder takes its place.
- The legend and column-header lines ("Capability Codes:", "Device ID") go
  at the bottom, after three blank lines.
- Every other line is a neighbor line. Each one goes into exactly one
  category, chosen by the first keyword group it contains, in this order:
  SAV switches, uplinks to the distribution layer, WAP models, IP phones
  ("T33"). A line that contains none of them is unsorted.
- The sections appear in a fixed order: WAPs and phones, each with a count
  line, then SAV switches, uplinks and unsorted lines.
- An empty section shows a placeholder line.

**MAC address table report** (`MacTable`):
- The trunk ports are the first fields of the lines after the "Port" header
  of `show int trunk`.
- The trunk check set holds every trunk port in two spellings: as listed,
  and with its short prefix expanded (`Gi` → `GigabitEthernet`, …).
- Header, separator and CPU lines are dropped. Each remaining entry is
  remote when its last field is in the trunk check set, and local
  otherwise.
- The report lists the local entries first, then the remote ones.

**How the model is built:**
- Each list-building loop of the original code is a method. Its loop
  invariant ties the lists built so far to a specification function of the
  input prefix:
  - `Scan` for the line merger;
  - `LastTop` and `Filter` for splitting off the special lines;
  - `Bucket` for the classification;
  - `CollectScan`/`CollectAfter` for the trunk header scan;
  - `Filter` for the entry selection and the local/remote routing.
- The loops that only compute a value are functions:
  - the walk over the prefix mapping in `normalize_interface_name` is the
    recursive function `NormalizeWith`;
  - the `any(...)` keyword tests are the predicate `ContainsAny`.
- The properties are lemmas about those functions.
- Python's string built-ins are modelled in `Text`:
  - `isspace`, `strip`, `startswith`, `in`, `split()`, `splitlines()` and
    `join`;
  - the split/join round trips are proved;
  - `ContainsIffOccurs` checks the recursive `in` test against an independent
    definition (some index where the substring occurs), and `TokensJoin` checks
    `split()` by splitting words joined with spaces back into those words.
- `Decimal` renders counts the way an f-string does and reads them back.
- The category test is a table of keyword groups, tried in order
  (`KeywordGroups`, read by `ClassifyWith`). `ClassifyWithFirstMatch` proves
  that a table is read first-match, and `ClassifyFirstMatch` proves that this
  table gives the same result as the source's if/elif chain. `SortLine` follows that chain
  branch by branch.
- `process_commands.py` is a byte-for-byte copy of `process_cdp_neighbors.py`.
- The helper nested inside `process_cdp_neighbors` (lines 50-64) is the
  top-level `merge_wrapped_lines` (lines 1-25) with a renamed parameter.
- Each of these is modelled once. Rows below cite whichever copy reads best.

## Model

| member | source | states |
|---|---|---|
| LineMerger.MergeWrappedLines | process_cdp_neighbors.py:1-25 | The merged lines are `Merged(SplitLines(raw))`, the lines the skip/glue/start rules produce, and none of them is empty |
| LineMerger.ScanInvariant | process_cdp_neighbors.py:8-21 | After any prefix of the input: (1) nothing is pending exactly when only blank lines were seen, and then nothing was emitted either; (2) no emitted line is empty; (3) emitted plus pending lines number the head lines, plus one for a leading continuation |
| LineMerger.MergedEmptyIffAllBlank | process_cdp_neighbors.py:50-64 | There are no logical lines exactly when every physical line is blank |
| LineMerger.MergedCount | process_commands.py:50-64 | One logical line per non-indented non-blank line, plus one when the first non-blank line is indented |
| LineMerger.MergedSnocBlank | process_cdp_neighbors.py:11-13 | A blank line changes nothing |
| LineMerger.MergedSnocHead | process_cdp_neighbors.py:17-21 | A non-indented line adds its stripped text as a new last logical line and keeps all earlier ones |
| LineMerger.MergedSnocContinuation | process_cdp_neighbors.py:14-16 | An indented line extends the last logical line by exactly one space and its stripped text. With no logical line yet, it starts one that begins with a space |
| LineMerger.MergedLeadingSpace | process_cdp_neighbors.py:14-16 | The first logical line begins with a space exactly when the first non-blank physical line is indented |
| LineMerger.MergedTwoRecords | process_commands.py:1-25 | Two unwrapped records stay two logical lines, unchanged |
| LineMerger.MergeWrappedRecord | process_cdp_neighbors.py:50-64 | A record wrapped once is rejoined with a single space, and the next record stays separate |
| LineMerger.MergeExample | process_cdp_neighbors.py:8-25 | `"Device-A"`, `"  continued"`, `"Device-B"` merge to `"Device-A continued"`, `"Device-B"` |
| Text.SplitLinesJoin | process_cdp_neighbors.py:175 | Splitting the newline-join of lines that hold no line end gives the lines back (the last line must be non-empty) |
| Text.JoinSplitLines | process_cdp_neighbors.py:10 | Joining `splitlines` output with newlines restores the text, less one final line end |
| Text.ContainsIffOccurs | process_mac_address_table.py:95-97 | The substring test `sub in s` holds exactly when `sub` occurs at some index of `s` |
| Text.TokensJoin | process_mac_address_table.py:106 | `split()` of words joined by single spaces gives back those words |
| CdpNeighbors.SplitSpecialLines | process_cdp_neighbors.py:69-83 | The loop keeps the last top line (`LastTop`). It collects the bottom lines and the main lines, each in input order |
| CdpNeighbors.LastTopIsLast | process_cdp_neighbors.py:75-78 | The kept top line is a top line of the input with no top line after it. There is none exactly when no line is a top line |
| CdpNeighbors.NoTopAmongMainLines | process_cdp_neighbors.py:75-83 | When every line is a neighbor line, no top line is kept |
| CdpNeighbors.SpecialSplitPartition | process_cdp_neighbors.py:75-83 | Every logical line is a top, bottom or main line, and exactly one of them: the sizes add up and the multisets add up to the input |
| CdpNeighbors.ClassifyWithFirstMatch | process_cdp_neighbors.py:86-112 | `Classify` reads the keyword table `KeywordGroups` with `ClassifyWith`. For any table whose groups name real categories, a category is chosen exactly when one of its groups has a keyword in the line and no earlier group has. Unsorted is chosen exactly when no group has |
| CdpNeighbors.ClassifyFirstMatch | process_cdp_neighbors.py:85-112 | Each category is chosen exactly when its keyword group matches and no earlier group does. Unsorted is chosen exactly when no group matches |
| CdpNeighbors.BucketSnoc | process_cdp_neighbors.py:98-112 | One more line goes to the end of its own category's list, and the other lists are unchanged |
| CdpNeighbors.SortLine | process_cdp_neighbors.py:99-112 | The loop body appends the line to the list of its category and leaves the other four unchanged |
| CdpNeighbors.ClassifyMainLines | process_cdp_neighbors.py:91-112 | Each of the five lists holds exactly the main lines of its category, in input order |
| CdpNeighbors.BucketMembers | process_cdp_neighbors.py:98-112 | A line is in a category's list exactly when it is a main line of that category |
| CdpNeighbors.BucketSizes | process_cdp_neighbors.py:98-112 | The five lists together are exactly as long as the main lines |
| CdpNeighbors.BucketsPartition | process_cdp_neighbors.py:98-112 | The five lists split the main lines without loss or duplication: their multisets add up to the main lines' multiset |
| CdpNeighbors.SpecialAndBucketsCoverLines | process_cdp_neighbors.py:74-112 | The lists count every logical line once: all entry-count lines, the bottom lines and the five category lists. That the report keeps only the last entry-count line is `CdpReportKeepsOnlyLastTop` |
| CdpNeighbors.LayoutOnlyTopFirst | process_cdp_neighbors.py:117-173 | When none of the lists holds an entry-count line, no line of the layout after the first is one: headings, placeholders, count lines and blank lines never start with "Total cdp entries displayed" |
| CdpNeighbors.CdpReportKeepsOnlyLastTop | process_cdp_neighbors.py:75-173 | Only the first report line can be an entry-count line. Every earlier "Total cdp entries displayed" line of the input appears nowhere in the report |
| CdpNeighbors.AppendCountedSection | process_cdp_neighbors.py:127-141 | Appends a heading, then the lines or the placeholder, then the count line |
| CdpNeighbors.AppendSection | process_cdp_neighbors.py:143-162 | Appends a heading, then the lines or the placeholder |
| CdpNeighbors.AppendPlainSections | process_cdp_neighbors.py:143-162 | Appends the SAV, uplink and unsorted sections, in that order |
| CdpNeighbors.AppendBottomSection | process_cdp_neighbors.py:164-173 | Appends three blank lines, then the bottom lines or their placeholder |
| CdpNeighbors.AssembleReport | process_cdp_neighbors.py:114-173 | The built section list is the fixed layout `CdpLayout` of the kept top line, the five lists and the bottom lines |
| CdpNeighbors.ProcessCdpNeighbors | process_cdp_neighbors.py:27-175 | The result is the newline-join of `CdpReport` of the merged lines |
| CdpNeighbors.CountedSectionReports | process_cdp_neighbors.py:127-133 | A counted section is its heading and its body, then a count line that reads back as the number of lines |
| CdpNeighbors.LayoutWapSection | process_cdp_neighbors.py:123-133 | Right after the three top lines come the WAP heading, the WAP lines (or placeholder) and a count line that reads back as the number of WAPs |
| CdpNeighbors.LayoutPhoneSection | process_cdp_neighbors.py:135-141 | Next come the phone heading, the phone lines (or placeholder) and a count line that reads back as the number of phones |
| CdpNeighbors.CdpReportCounts | process_cdp_neighbors.py:127-141 | In the report, the WAP and phone sections list exactly the lines of their category. Each count line reads back as that category's size, 0 included |
| CdpNeighbors.CdpReportTop | process_cdp_neighbors.py:117-125 | The first report line is the last "Total cdp entries displayed" line of the input, or "Total cdp entries displayed: N/A" when there is none |
| CdpNeighbors.LayoutBottom | process_cdp_neighbors.py:164-173 | The report ends with three blank lines, then the bottom lines in input order (or the placeholder) |
| CdpNeighbors.ClassifySwitch | process_cdp_neighbors.py:86-101 | A line containing "CBS350" is a SAV switch |
| CdpNeighbors.ClassifyAccessPoint | process_cdp_neighbors.py:86-107 | A line containing "AIR-AP" and no SAV or uplink keyword is a WAP |
| CdpNeighbors.SwitchAndAccessPointBuckets | process_cdp_neighbors.py:98-112 | A SAV line and a WAP line: the WAP list is the second line, the phone list is empty and the SAV list is the first line |
| CdpNeighbors.LayoutSwitchAndAccessPoint | process_cdp_neighbors.py:117-148 | With no top line, one WAP, no phone and one switch, the layout opens with the "N/A" line. The WAP section follows: the WAP heading, the access point and "Total number of WAPs: 1". The SAV section has the switch under its heading |
| CdpNeighbors.ReportOfSwitchAndAccessPoint | process_cdp_neighbors.py:114-173 | For a SAV line followed by a WAP line, the report opens with the "N/A" line, then lists the WAP with a count of 1, then the switch under the SAV heading |
| CdpNeighbors.ScenarioSwitchAndAccessPoint | process_cdp_neighbors.py:27-175 | Raw output holding a CBS350 switch line and an AIR-AP line yields that layout end to end |
| Report.AppendBody | process_mac_address_table.py:120-123 | Extends with the lines if there are any; otherwise appends the placeholder |
| Report.BodyPlaceholder | process_cdp_neighbors.py:129-132 | The placeholder stands alone exactly when there are no lines. Otherwise the body is the lines |
| Report.CountLineReports | process_cdp_neighbors.py:133 | `heading + str(n)` reads back as `n` |
| Decimal.ParseNatToString | process_cdp_neighbors.py:141 | Reading a rendered count gives the count back |
| Decimal.NatToStringInjective | process_cdp_neighbors.py:141 | Different counts render differently |
| MacTable.GetTrunkInterfaces | process_mac_address_table.py:1-35 | The result is `TrunkInterfaces`: the first fields of the non-blank lines after the first line whose stripped text starts with "Port" |
| MacTable.TrunkWithoutHeader | process_mac_address_table.py:22-26 | Without a header line there are no trunk ports |
| MacTable.TrunkAfterPreamble | process_mac_address_table.py:22-33 | Lines up to and including the first header contribute nothing. The ports are the first fields of the non-blank lines after it |
| MacTable.TrunkPortsAreFirstFields | process_mac_address_table.py:28-33 | There is one port per non-blank line after the header, and each port is a single word. A name is listed exactly when some such line begins with it |
| MacTable.NormalizeWithNoMatch | process_mac_address_table.py:54-57 | When no prefix in the table starts the name, the name is returned unchanged |
| MacTable.NormalizeWithFirstMatch | process_mac_address_table.py:54-56 | The first table entry whose prefix starts the name decides: its long name replaces the prefix |
| MacTable.NormalizeInterfaceName | process_mac_address_table.py:37-57 | A name starting with "Po", "Gi", "Te" or "Fa" gets that prefix's long name in place of the two letters, and the rest is kept. Any other name is returned unchanged |
| MacTable.ShortPrefixesExclusive | process_mac_address_table.py:48-53 | A name starts with at most one of the short prefixes, so the order they are tried in cannot change the result |
| MacTable.NormalizeExamples | process_mac_address_table.py:41-44 | `Po1`, `Gi8/1` and `Te2/1` normalize as the function's documentation says |
| MacTable.NormalizePortChannel | process_mac_address_table.py:49-56 | "Po" followed by any text becomes "Port-channel" followed by that text |
| MacTable.NormalizeNotIdempotent | process_mac_address_table.py:48-56 | "Port-channel1" becomes "Port-channelrt-channel1", so normalizing twice differs from normalizing once |
| MacTable.TrunkCheckSet | process_mac_address_table.py:84-86 | Every trunk port is in the check set both as listed and normalized. Nothing else is in it |
| MacTable.SelectDataLines | process_mac_address_table.py:91-99 | The kept lines are exactly those without "Mac Address", "Vlan", "----" or "CPU", in input order |
| MacTable.MacDataLineKept | process_mac_address_table.py:88-99 | A line of the MAC output is an entry exactly when it is non-blank and contains none of the four markers |
| MacTable.MacDataLines | process_mac_address_table.py:88-99 | There are at most as many entries as output lines. Each entry is a non-blank line of the output that holds none of the header markers and no "CPU" |
| MacTable.LastField | process_mac_address_table.py:106-109 | There is no field exactly when the line is blank. Otherwise the field is the last whitespace-separated word |
| MacTable.RouteEntry | process_mac_address_table.py:105-114 | A blank line is skipped. Otherwise the line goes to the remote list exactly when its last field is in the check set, and to the local list when it is not |
| MacTable.SplitByPort | process_mac_address_table.py:101-114 | The local and remote lists are the entries whose last field is, respectively, outside and inside the check set, in input order |
| MacTable.LocalRemotePartition | process_mac_address_table.py:101-114 | Local and remote split the entries without loss or duplication (sizes and multisets) |
| MacTable.MacRemoteIff | process_mac_address_table.py:82-114 | An entry is remote exactly when its last field is a trunk port as listed or as normalized. Otherwise it is local |
| MacTable.NoTrunksAllLocal | process_mac_address_table.py:105-114 | With no trunk ports, every entry is local, in input order, and none is remote |
| MacTable.MacLayout | process_mac_address_table.py:116-131 | No local or remote entry is lost from the report. Besides the entries there are exactly the two headings and one placeholder per empty section |
| MacTable.MacLayoutSections | process_mac_address_table.py:116-131 | The report is the local heading, the local entries (or placeholder), the remote heading, then the remote entries (or placeholder) |
| MacTable.ProcessMacAddressTable | process_mac_address_table.py:59-131 | The result is the newline-join of `MacReport` of the two outputs |
| MacTable.ScenarioTrunkPortRemote | process_mac_address_table.py:59-131 | One entry on a port listed under the trunk header is reported as remotely learned, and nothing is local |
| MacTable.ScenarioTrunkPortLocal | process_mac_address_table.py:59-131 | With empty trunk output, the same entry is reported as local, and nothing is remote |

## Left out

- Whitespace covers only ASCII. `IsSpace` holds Python's ASCII whitespace, including `\x1c`–`\x1f`. The non-ASCII characters that `str.isspace` also accepts are not modelled.
- `splitlines` splits on `'\n'` only. Python's other line boundaries (`\r`, `\r\n`, `\v`, `\f`, `\x1c`–`\x1e`, `\x85`, `\u2028`, `\u2029`) are not modelled.
- The order of Python's `set` is not modelled: the trunk check set is a mathematical set, which is enough because it is only tested for membership.
- The script that runs the commands over a Telnet session and writes the reports to files, `Cisco Collect.py`, is not part of this model, because it is I/O.
- The inner helper at process_cdp_neighbors.py:50-64 is not modelled separately. It is the same code as lines 1-25.
- process_commands.py is not modelled separately. It is the same file as process_cdp_neighbors.py.
- CdpNeighbors.LayoutBottom: the bottom of the report is stated about `CdpLayout`. `CdpReport` is `CdpLayout` applied to the computed lists, so the statement covers every report.
- Some guards can never fire: `if parts:` in `get_trunk_interfaces` and `if not parts: continue` in the MAC loop act only on non-blank lines. They are modelled as written (`FirstField`, `LastField`) rather than removed.
- The `if top_line:` truthiness test is modelled as written, as "present and non-empty". A kept top line always starts with the marker, so it is never empty.
