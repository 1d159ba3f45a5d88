/**
 * The building blocks both report builders share: a section body that falls
 * back to a fixed placeholder when it has no lines, and a count line made of
 * a fixed heading and a decimal number.
 */
module Report {
  import opened Wrappers
  import opened Text
  import opened Decimal

  /** A section's lines, or its placeholder alone when it has none. */
  function Body(lines: seq<string>, placeholder: string): seq<string> {
    if lines != [] then lines else [placeholder]
  }

  /** `output_sections.extend(lines)` if there are any, else `output_sections.append(placeholder)`. */
  method AppendBody(sections: seq<string>, lines: seq<string>, placeholder: string) returns (r: seq<string>)
    ensures r == sections + Body(lines, placeholder)
  {
    if lines != [] {
      r := sections + lines;
    } else {
      r := sections + [placeholder];
    }
  }

  /** `f"{heading}{n}"`. */
  function CountLine(heading: string, n: nat): string {
    heading + NatToString(n)
  }

  /** The number a count line reports, if `line` is `heading` followed by a numeral. */
  function CountIn(heading: string, line: string): Option<nat> {
    if StartsWith(line, heading) && IsDigits(line[|heading|..]) then Some(ParseNat(line[|heading|..]))
    else None
  }

  /** A count line reports exactly the number it was made from. */
  lemma CountLineReports(heading: string, n: nat)
    ensures CountIn(heading, CountLine(heading, n)) == Some(n)
  {
    var line := CountLine(heading, n);
    assert line[|heading|..] == NatToString(n);
    ParseNatToString(n);
  }

  /** The placeholder is the whole body exactly when there are no lines, and otherwise the body is the lines. */
  lemma BodyPlaceholder(lines: seq<string>, placeholder: string)
    ensures |Body(lines, placeholder)| >= 1
    ensures lines == [] <==> Body(lines, placeholder) == [placeholder] && placeholder !in lines
    ensures lines != [] ==> Body(lines, placeholder) == lines
  {
  }
}
