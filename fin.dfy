/**
  The SWIFT FIN engine (rust/src/fin_parser.rs): block extraction, the fixed-offset
  basic and application headers, the user-header and trailer sub-tags, the `:TAG:value`
  fields of the text block with their grouping into transactions, and the assembly of
  the record list. The three patterns the engine hands to a regex engine are modelled
  as the scans they describe.
*/
module FinParser {
  import opened Wrappers
  import opened Text
  import opened Types
  import Utils

  // ---------------------------------------------------------------- names

  /** `FIN_FIELD_NAMES`: the names of the text-block field tags the engine knows. */
  const FinFieldNames: seq<(string, string)> := [
    ("20", "Transaction Reference Number"),
    ("21", "Related Reference"),
    ("23B", "Bank Operation Code"),
    ("23E", "Instruction Code"),
    ("25", "Account Identification"),
    ("25P", "Account Identification with Party"),
    ("28C", "Statement Number/Sequence Number"),
    ("32A", "Value Date/Currency/Amount"),
    ("33B", "Currency/Instructed Amount"),
    ("36", "Exchange Rate"),
    ("50A", "Ordering Customer (Account)"),
    ("50F", "Ordering Customer (Party)"),
    ("50K", "Ordering Customer (Name & Address)"),
    ("51A", "Sending Institution"),
    ("52A", "Ordering Institution (Account)"),
    ("52D", "Ordering Institution (Name & Address)"),
    ("53A", "Sender's Correspondent (Account)"),
    ("53B", "Sender's Correspondent (Location)"),
    ("53D", "Sender's Correspondent (Name & Address)"),
    ("54A", "Receiver's Correspondent (Account)"),
    ("54B", "Receiver's Correspondent (Location)"),
    ("54D", "Receiver's Correspondent (Name & Address)"),
    ("55A", "Third Reimbursement Institution (Account)"),
    ("55B", "Third Reimbursement Institution (Location)"),
    ("55D", "Third Reimbursement Institution (Name & Address)"),
    ("56A", "Intermediary Institution (Account)"),
    ("56C", "Intermediary Institution (Account)"),
    ("56D", "Intermediary Institution (Name & Address)"),
    ("57A", "Account With Institution (Account)"),
    ("57B", "Account With Institution (Location)"),
    ("57C", "Account With Institution (Account)"),
    ("57D", "Account With Institution (Name & Address)"),
    ("59", "Beneficiary Customer"),
    ("59A", "Beneficiary Customer (Account)"),
    ("59F", "Beneficiary Customer (Party)"),
    ("60F", "Opening Balance"),
    ("60M", "Opening Balance (Intermediate)"),
    ("61", "Statement Line"),
    ("62F", "Closing Balance"),
    ("62M", "Closing Balance (Intermediate)"),
    ("64", "Closing Available Balance"),
    ("65", "Forward Available Balance"),
    ("70", "Remittance Information"),
    ("71A", "Details of Charges"),
    ("71F", "Sender's Charges"),
    ("71G", "Receiver's Charges"),
    ("72", "Sender to Receiver Information"),
    ("77B", "Regulatory Reporting"),
    ("77T", "Envelope Contents"),
    ("86", "Information to Account Owner")
  ]

  /** The name of a text-block field: its table entry, else "Field <tag>". */
  function FieldName(tag: string): string {
    match Lookup(FinFieldNames, tag)
    case Some(name) => name
    case None => "Field " + tag
  }

  /** The user-header (block 3) sub-tags with a name of their own. */
  const UserHeaderNames: seq<(string, string)> := [
    ("103", "Service Type Identifier"),
    ("108", "Message User Reference"),
    ("111", "Service Type Identifier"),
    ("113", "Banking Priority"),
    ("115", "Addressee Information"),
    ("119", "Validation Flag"),
    ("121", "Unique End-to-End Transaction Reference"),
    ("165", "Payment Release Information"),
    ("433", "Sanctions Screening Information"),
    ("434", "Payment Controls Information")
  ]

  /** The trailer (block 5) sub-tags with a name of their own. */
  const TrailerNames: seq<(string, string)> := [
    ("CHK", "Checksum"),
    ("TNG", "Training"),
    ("PDE", "Possible Duplicate Emission"),
    ("DLM", "Delayed Message"),
    ("MRF", "Message Reference"),
    ("PDM", "Possible Duplicate Message"),
    ("SYS", "System Originated Message")
  ]

  /** A sub-tag is named by its table entry, else by the tag itself. */
  function SubTagName(names: seq<(string, string)>, tag: string): string {
    match Lookup(names, tag)
    case Some(name) => name
    case None => tag
  }

  // ---------------------------------------------------------------- fields

  /** `create_field`: a string field whose original value is the value itself. */
  function CreateField(name: string, value: string): (f: ParsedField)
    ensures f.name == name && f.value == StringValue(value) && f.originalValue == value
    ensures f.fieldType == StringType && f.position.None?
  {
    ParsedField(name, StringValue(value), StringType, value, None)
  }

  /** The text-block tags whose values are amounts. */
  const AmountTags: set<string> := {"32A", "33B", "60F", "60M", "62F", "62M", "64", "65"}

  predicate HasAsciiDigit(s: string) {
    exists i :: 0 <= i < |s| && IsAsciiDigit(s[i])
  }

  /** `infer_fin_type`: an amount tag whose value holds a digit is a number; all else is a string. */
  function InferFinType(tag: string, value: string): FieldType {
    if tag in AmountTags && HasAsciiDigit(value) then NumberType else StringType
  }

  /** Only amount tags can give a number, and only when a digit is there; nothing else is ever inferred. */
  lemma InferFinTypeCases(tag: string, value: string)
    ensures InferFinType(tag, value) in {NumberType, StringType}
    ensures InferFinType(tag, value) == NumberType <==> tag in AmountTags && HasAsciiDigit(value)
  {
  }

  /**
    `is_group_boundary`: the tags after which a transaction group ends, "59", "59A",
    "59F", "61" and "86", spelled out character by character (see `GroupBoundaryTags`).
  */
  predicate IsGroupBoundary(tag: string) {
    if |tag| == 2 then
      (tag[0] == '5' && tag[1] == '9') || (tag[0] == '6' && tag[1] == '1') || (tag[0] == '8' && tag[1] == '6')
    else
      |tag| == 3 && tag[0] == '5' && tag[1] == '9' && (tag[2] == 'A' || tag[2] == 'F')
  }

  /** The boundary tags are exactly the five of the source's list. */
  lemma GroupBoundaryTags(tag: string)
    ensures IsGroupBoundary(tag) <==> tag in {"59", "59A", "59F", "61", "86"}
  {
    if |tag| == 2 {
      assert tag == [tag[0], tag[1]];
    } else if |tag| == 3 {
      assert tag == [tag[0], tag[1], tag[2]];
    }
  }

  // ---------------------------------------------------------------- blocks

  /** A `{n:content}` block: `n` one digit, `content` free of '}'. */
  datatype Block = Block(number: char, content: string)

  /** `{`, a digit and `:` open a block at `i`; the regex class `\d` is taken as the ASCII digits. */
  predicate BlockOpensAt(s: string, i: nat) {
    i + 3 <= |s| && s[i] == '{' && IsAsciiDigit(s[i + 1]) && s[i + 2] == ':'
  }

  /**
    The successive matches of `BLOCK_REGEX` from position `from`: an opening `{d:`
    followed by a closing '}', the content being everything in between. An opening
    with no '}' after it cannot start a match, and neither can any later position.
  */
  function BlockMatches(s: string, from: nat): (bs: seq<Block>)
    decreases |s| - from
    ensures forall k :: 0 <= k < |bs| ==> IsAsciiDigit(bs[k].number) && '}' !in bs[k].content
  {
    if from >= |s| then []
    else if BlockOpensAt(s, from) then
      match IndexOfFrom(s, '}', from + 3)
      case None => []
      case Some(j) => [Block(s[from + 1], s[from + 3..j])] + BlockMatches(s, j + 1)
    else BlockMatches(s, from + 1)
  }

  /** Inserting the blocks one by one into a map: a later block replaces an earlier one of the same number. */
  function LastWins(bs: seq<Block>): map<char, string> {
    if bs == [] then map[]
    else LastWins(bs[..|bs| - 1])[bs[|bs| - 1].number := bs[|bs| - 1].content]
  }

  /**
    The map holds exactly the numbers that occur, and each number's content is that of
    its last occurrence.
  */
  lemma {:induction false} LastWinsLookup(bs: seq<Block>, n: char)
    ensures n in LastWins(bs) <==> exists k :: 0 <= k < |bs| && bs[k].number == n
    ensures n in LastWins(bs) ==>
      exists k :: (0 <= k < |bs| && bs[k].number == n && LastWins(bs)[n] == bs[k].content
                   && forall l :: k < l < |bs| ==> bs[l].number != n)
    decreases |bs|
  {
    if bs != [] {
      var init, last := bs[..|bs| - 1], bs[|bs| - 1];
      LastWinsLookup(init, n);
      assert forall k :: 0 <= k < |init| ==> init[k] == bs[k];
      if last.number == n {
        assert bs[|bs| - 1].number == n;
      } else if n in LastWins(init) {
        var k :| 0 <= k < |init| && init[k].number == n && LastWins(init)[n] == init[k].content
          && forall l :: k < l < |init| ==> init[l].number != n;
        assert bs[k].number == n && LastWins(bs)[n] == bs[k].content;
      }
    }
  }

  /** `{4:` opens the alternative text-block form at `i`. */
  predicate TextBlockOpensAt(s: string, i: nat) {
    i + 3 <= |s| && s[i] == '{' && s[i + 1] == '4' && s[i + 2] == ':'
  }

  /** The end of the run of ASCII whitespace starting at `from` (the regex class `\s`, taken as ASCII). */
  function WhitespaceEnd(s: string, from: nat): (e: nat)
    requires from <= |s|
    decreases |s| - from
    ensures from <= e <= |s|
    ensures forall i :: from <= i < e ==> IsWhitespace(s[i])
    ensures e < |s| ==> !IsWhitespace(s[e])
  {
    if from == |s| || !IsWhitespace(s[from]) then from else WhitespaceEnd(s, from + 1)
  }

  /** The last line feed in `s[lo..hi]`. */
  function LastNewline(s: string, lo: nat, hi: nat): (r: Option<nat>)
    requires lo <= hi <= |s|
    decreases hi
    ensures r.Some? ==> lo <= r.value < hi && s[r.value] == '\n'
    ensures r.Some? ==> forall i :: r.value < i < hi ==> s[i] != '\n'
    ensures r.None? ==> forall i :: lo <= i < hi ==> s[i] != '\n'
  {
    if lo == hi then None
    else if s[hi - 1] == '\n' then Some(hi - 1)
    else LastNewline(s, lo, hi - 1)
  }

  /** The first `-}` at or after `from`. */
  function DashBraceFrom(s: string, from: nat): (r: Option<nat>)
    decreases |s| - from
    ensures r.Some? ==> from <= r.value && r.value + 2 <= |s| && s[r.value] == '-' && s[r.value + 1] == '}'
    ensures r.Some? ==> forall i :: from <= i < r.value ==> !(s[i] == '-' && s[i + 1] == '}')
  {
    if from + 2 > |s| then None
    else if s[from] == '-' && s[from + 1] == '}' then Some(from)
    else DashBraceFrom(s, from + 1)
  }

  /**
    The first match of the alternative text-block pattern `{4:`, whitespace ending in a
    line feed, a body, `-}`. The greedy whitespace run stops at its last line feed and
    the lazy body at the first `-}` after it. When an opening has whitespace with a line
    feed but no `-}` follows, no later opening can match either.
  */
  function AltTextBlock(s: string, from: nat): (r: Option<string>)
    decreases |s| - from
  {
    if from >= |s| then None
    else if TextBlockOpensAt(s, from) then
      var w := WhitespaceEnd(s, from + 3);
      match LastNewline(s, from + 3, w)
      case None => AltTextBlock(s, from + 1)
      case Some(n) =>
        match DashBraceFrom(s, n + 1)
        case None => None
        case Some(d) => Some(s[n + 1..d])
    else AltTextBlock(s, from + 1)
  }

  /**
    What `parse_blocks` returns: the blocks by number, later ones winning, and, when the
    main pattern found no text block, the body of the alternative form if there is one.
  */
  function BlockMap(data: string): map<char, string> {
    var m := LastWins(BlockMatches(data, 0));
    if '4' !in m && AltTextBlock(data, 0).Some? then m['4' := AltTextBlock(data, 0).value] else m
  }

  /** `parse_blocks`. */
  method ParseBlocks(data: string) returns (blocks: map<char, string>)
    ensures blocks == BlockMap(data)
  {
    blocks := map[];
    var matches := BlockMatches(data, 0);
    for k := 0 to |matches|
      invariant blocks == LastWins(matches[..k])
    {
      assert matches[..k + 1][..k] == matches[..k];
      blocks := blocks[matches[k].number := matches[k].content];
    }
    assert matches[..|matches|] == matches;
    if '4' !in blocks {
      var alt := AltTextBlock(data, 0);
      if alt.Some? {
        blocks := blocks['4' := alt.value];
      }
    }
  }

  /**
    Every block but a text block in the alternative form comes from the main pattern,
    so its content holds no '}'; the number of each is a digit.
  */
  lemma BlockMapContents(data: string, n: char)
    requires n in BlockMap(data)
    ensures IsAsciiDigit(n)
    ensures n != '4' ==> '}' !in BlockMap(data)[n]
  {
    var bs := BlockMatches(data, 0);
    if n in LastWins(bs) {
      LastWinsLookup(bs, n);
    }
  }

  // ---------------------------------------------------------------- basic and application headers

  /** A fixed-offset field: its name and the character positions `[start, end)` it occupies. */
  datatype Slot = Slot(name: string, start: nat, end: nat)

  /** Each slot is a range, and the slots end in order. */
  predicate OrderedLayout(layout: seq<Slot>) {
    (forall k :: 0 <= k < |layout| ==> layout[k].start <= layout[k].end)
    && forall k, l :: 0 <= k < l < |layout| ==> layout[k].end <= layout[l].end
  }

  /** The fields of the slots that fit in `content`, up to the first one that does not. */
  function LayoutFields(content: string, layout: seq<Slot>): seq<ParsedField>
    requires forall k :: 0 <= k < |layout| ==> layout[k].start <= layout[k].end
    decreases |layout|
  {
    if layout == [] || layout[0].end > |content| then []
    else
      var slot := layout[0];
      [CreateField(slot.name, content[slot.start..slot.end])] + LayoutFields(content, layout[1..])
  }

  /**
    For slots that end in order, the fields are exactly one per slot that fits in the
    content, in slot order, each named by its slot and holding that slice of the content.
  */
  lemma {:induction false} LayoutFieldsFit(content: string, layout: seq<Slot>)
    requires OrderedLayout(layout)
    ensures |LayoutFields(content, layout)| <= |layout|
    ensures forall k :: 0 <= k < |layout| ==>
      (k < |LayoutFields(content, layout)| <==> layout[k].end <= |content|)
    ensures forall k :: 0 <= k < |LayoutFields(content, layout)| ==>
      LayoutFields(content, layout)[k] == CreateField(layout[k].name, content[layout[k].start..layout[k].end])
    decreases |layout|
  {
    if layout != [] && layout[0].end <= |content| {
      var rest := layout[1..];
      assert OrderedLayout(rest) by {
        forall k, l | 0 <= k < l < |rest| ensures rest[k].end <= rest[l].end {
          assert rest[k] == layout[k + 1] && rest[l] == layout[l + 1];
        }
      }
      LayoutFieldsFit(content, rest);
      forall k | 0 <= k < |layout|
        ensures k < |LayoutFields(content, layout)| <==> layout[k].end <= |content|
      {
        if k > 0 {
          assert layout[k] == rest[k - 1];
        }
      }
    }
  }

  /** The basic header (block 1): application, service, terminal, session and sequence. */
  const BasicHeaderLayout: seq<Slot> := [
    Slot("Application ID", 0, 1),
    Slot("Service ID", 1, 3),
    Slot("Logical Terminal", 3, 15),
    Slot("Session Number", 15, 19),
    Slot("Sequence Number", 19, 25)
  ]

  /**
    `parse_block1`, with the session-number guard at 19, the end of its slice: every
    slot that fits in the header becomes a field.
  */
  method ParseBlock1(content: string) returns (fields: seq<ParsedField>)
    ensures fields == LayoutFields(content, BasicHeaderLayout)
  {
    fields := [];
    var chars := content;
    if |chars| >= 1 {
      fields := fields + [CreateField("Application ID", chars[0..1])];
    }
    if |chars| >= 3 {
      fields := fields + [CreateField("Service ID", chars[1..3])];
    }
    if |chars| >= 15 {
      fields := fields + [CreateField("Logical Terminal", chars[3..15])];
    }
    if |chars| >= 19 {
      fields := fields + [CreateField("Session Number", chars[15..19])];
    }
    if |chars| >= 25 {
      fields := fields + [CreateField("Sequence Number", chars[19..25])];
    }
  }

  /**
    `parse_block1` as written: the session number is guarded by a length of 16 but
    sliced up to 19, so a header of 16 to 18 characters makes the slice panic (`None`).
  */
  method ParseBlock1AsWritten(content: string) returns (r: Option<seq<ParsedField>>)
    ensures r.None? <==> 16 <= |content| < 19
    ensures r.Some? ==> r.value == LayoutFields(content, BasicHeaderLayout)
  {
    var fields := [];
    var chars := content;
    if |chars| >= 1 {
      fields := fields + [CreateField("Application ID", chars[0..1])];
    }
    if |chars| >= 3 {
      fields := fields + [CreateField("Service ID", chars[1..3])];
    }
    if |chars| >= 15 {
      fields := fields + [CreateField("Logical Terminal", chars[3..15])];
    }
    if |chars| >= 16 {
      if |chars| < 19 {
        return None;
      }
      fields := fields + [CreateField("Session Number", chars[15..19])];
    }
    if |chars| >= 25 {
      fields := fields + [CreateField("Sequence Number", chars[19..25])];
    }
    r := Some(fields);
  }

  /**
    A 16-character basic header, a whole one cut after the first session digit: the
    guard lets it through to a slice that ends past it, while every slot that fits
    still gives a field under the corrected guard.
  */
  lemma SessionGuardCounterexample()
    ensures var header := "F01BANKUS33AXXX0";
      16 <= |header| < 19 && |LayoutFields(header, BasicHeaderLayout)| == 3
  {
    var header := "F01BANKUS33AXXX0";
    LayoutFieldsFit(header, BasicHeaderLayout);
  }

  /** The application header (block 2) after its direction character. */
  function ApplicationHeaderLayout(direction: char): seq<Slot> {
    if direction == 'I' then [Slot("Message Type", 1, 4), Slot("Destination", 4, 16)]
    else if direction == 'O' then [Slot("Message Type", 1, 4), Slot("Input Time", 4, 8)]
    else []
  }

  /** The fields of an application header: none when empty, else the direction and the slots that fit. */
  function ApplicationHeader(content: string): seq<ParsedField> {
    if content == [] then []
    else
      [CreateField("Direction", if content[0] == 'I' then "Input" else "Output")]
        + LayoutFields(content, ApplicationHeaderLayout(content[0]))
  }

  /** `parse_block2`. */
  method ParseBlock2(content: string) returns (fields: seq<ParsedField>)
    ensures fields == ApplicationHeader(content)
  {
    fields := [];
    var chars := content;
    if |chars| == 0 {
      return;
    }
    var direction := chars[0];
    ghost var layout := ApplicationHeaderLayout(direction);
    LayoutFieldsFit(chars, layout);
    fields := fields + [CreateField("Direction", if direction == 'I' then "Input" else "Output")];
    if direction == 'I' && |chars| >= 4 {
      fields := fields + [CreateField("Message Type", chars[1..4])];
      if |chars| >= 16 {
        fields := fields + [CreateField("Destination", chars[4..16])];
      }
    } else if direction == 'O' && |chars| >= 4 {
      fields := fields + [CreateField("Message Type", chars[1..4])];
      if |chars| >= 8 {
        fields := fields + [CreateField("Input Time", chars[4..8])];
      }
    }
  }

  /**
    An empty application header gives no fields. Otherwise the direction comes first,
    "Input" for 'I' and "Output" for every other character; an input header may carry
    a message type and a destination, an output header a message type and an input
    time, and a header that opens with neither 'I' nor 'O' carries the direction alone.
  */
  lemma ApplicationHeaderFields(content: string)
    ensures content == [] ==> ApplicationHeader(content) == []
    ensures content != [] ==>
      var fs := ApplicationHeader(content);
      |fs| >= 1 && fs[0] == CreateField("Direction", if content[0] == 'I' then "Input" else "Output")
      && (var rest := fs[1..];
        |rest| <= 2
        && (content[0] != 'I' && content[0] != 'O' ==> rest == [])
        && (|rest| >= 1 <==> (content[0] == 'I' || content[0] == 'O') && |content| >= 4)
        && (|rest| == 2 <==> (content[0] == 'I' && |content| >= 16) || (content[0] == 'O' && |content| >= 8))
        && (|rest| >= 1 ==> rest[0] == CreateField("Message Type", content[1..4]))
        && (|rest| == 2 && content[0] == 'I' ==> rest[1] == CreateField("Destination", content[4..16]))
        && (|rest| == 2 && content[0] == 'O' ==> rest[1] == CreateField("Input Time", content[4..8])))
  {
    if content != [] {
      var fs := ApplicationHeader(content);
      LayoutFieldsFit(content, ApplicationHeaderLayout(content[0]));
      assert fs[1..] == LayoutFields(content, ApplicationHeaderLayout(content[0]));
    }
  }

  // ---------------------------------------------------------------- user header and trailer

  /** The sub-tag alphabets: three digits in the user header, three capitals in the trailer. */
  datatype TagAlphabet = ThreeDigits | ThreeCapitals {
    predicate Admits(c: char) {
      match this
      case ThreeDigits => IsAsciiDigit(c)
      case ThreeCapitals => IsAsciiUpper(c)
    }
  }

  /** A matched tag and its value. */
  datatype Capture = Capture(tag: string, value: string)

  /** `{`, three characters of the alphabet and `:` open a sub-tag at `i`. */
  predicate SubTagOpensAt(s: string, i: nat, alphabet: TagAlphabet) {
    i + 5 <= |s| && s[i] == '{' && alphabet.Admits(s[i + 1]) && alphabet.Admits(s[i + 2])
    && alphabet.Admits(s[i + 3]) && s[i + 4] == ':'
  }

  /**
    The successive matches of the sub-tag pattern `{ttt:value}` from `from`: as for
    blocks, the value runs to the first '}', and without one no match remains.
  */
  function SubTagMatches(s: string, from: nat, alphabet: TagAlphabet): (cs: seq<Capture>)
    decreases |s| - from
    ensures forall k :: 0 <= k < |cs| ==> |cs[k].tag| == 3 && '}' !in cs[k].value
  {
    if from >= |s| then []
    else if SubTagOpensAt(s, from, alphabet) then
      match IndexOfFrom(s, '}', from + 5)
      case None => []
      case Some(j) => [Capture(s[from + 1..from + 4], s[from + 5..j])] + SubTagMatches(s, j + 1, alphabet)
    else SubTagMatches(s, from + 1, alphabet)
  }

  /** A sub-tag needs a closing '}', so a text without one has no sub-tags. */
  lemma {:induction false} NoClosingBraceNoSubTags(s: string, from: nat, alphabet: TagAlphabet)
    requires '}' !in s
    ensures SubTagMatches(s, from, alphabet) == []
    decreases |s| - from
  {
    if from < |s| && !SubTagOpensAt(s, from, alphabet) {
      NoClosingBraceNoSubTags(s, from + 1, alphabet);
    }
  }

  /** The fields of the sub-tags of a user header or trailer: each named from the table, else by its tag. */
  function SubTagFieldList(content: string, alphabet: TagAlphabet, names: seq<(string, string)>): seq<ParsedField> {
    var cs := SubTagMatches(content, 0, alphabet);
    seq(|cs|, k requires 0 <= k < |cs| => CreateField(SubTagName(names, cs[k].tag), cs[k].value))
  }

  /** The sub-tag loop shared by `parse_block3` and `parse_block5`. */
  method SubTagFields(content: string, alphabet: TagAlphabet, names: seq<(string, string)>)
    returns (fields: seq<ParsedField>)
    ensures var cs := SubTagMatches(content, 0, alphabet);
      |fields| == |cs|
      && forall k :: 0 <= k < |cs| ==> fields[k] == CreateField(SubTagName(names, cs[k].tag), cs[k].value)
    ensures fields == SubTagFieldList(content, alphabet, names)
  {
    fields := [];
    var captures := SubTagMatches(content, 0, alphabet);
    for idx := 0 to |captures|
      invariant |fields| == idx
      invariant forall k :: 0 <= k < idx ==> fields[k] == CreateField(SubTagName(names, captures[k].tag), captures[k].value)
    {
      var tag := captures[idx].tag;
      var value := captures[idx].value;
      fields := fields + [CreateField(SubTagName(names, tag), value)];
    }
  }

  /** `parse_block3`: the user-header sub-tags, three digits each. */
  method ParseBlock3(content: string) returns (fields: seq<ParsedField>)
    ensures fields == SubTagFieldList(content, ThreeDigits, UserHeaderNames)
  {
    fields := SubTagFields(content, ThreeDigits, UserHeaderNames);
  }

  /** `parse_block5`: the trailer sub-tags, three capitals each. */
  method ParseBlock5(content: string) returns (fields: seq<ParsedField>)
    ensures fields == SubTagFieldList(content, ThreeCapitals, TrailerNames)
  {
    fields := SubTagFields(content, ThreeCapitals, TrailerNames);
  }

  /**
    A user header or trailer that `parse_blocks` extracted ends at its first '}', so it
    cannot hold a whole `{ttt:value}` sub-tag: those blocks never yield fields.
  */
  lemma ExtractedHeadersHaveNoSubTags(data: string, n: char, alphabet: TagAlphabet)
    requires n in BlockMap(data) && n != '4'
    ensures SubTagMatches(BlockMap(data)[n], 0, alphabet) == []
  {
    BlockMapContents(data, n);
    NoClosingBraceNoSubTags(BlockMap(data)[n], 0, alphabet);
  }

  // ---------------------------------------------------------------- text block

  /**
    The length of the field tag `:DD:` or `:DDA:` at `i` (two digits and an optional
    capital), if one is there.
  */
  function TagAt(s: string, i: nat): (n: Option<nat>)
    ensures n.Some? ==> (n.value == 2 || n.value == 3) && i + n.value + 2 <= |s|
    ensures n.Some? ==>
      (s[i] == ':' && s[i + n.value + 1] == ':' && IsAsciiDigit(s[i + 1]) && IsAsciiDigit(s[i + 2])
       && (n.value == 3 ==> IsAsciiUpper(s[i + 3])))
  {
    if i + 4 <= |s| && s[i] == ':' && IsAsciiDigit(s[i + 1]) && IsAsciiDigit(s[i + 2]) then
      if i + 5 <= |s| && IsAsciiUpper(s[i + 3]) && s[i + 4] == ':' then Some(3)
      else if s[i + 3] == ':' then Some(2)
      else None
    else None
  }

  /** The end of the run of characters other than ':' that starts at `from`. */
  function ColonFreeEnd(s: string, from: nat): (e: nat)
    requires from <= |s|
    ensures from <= e <= |s| && ':' !in s[from..e]
    ensures e < |s| ==> s[e] == ':'
  {
    match IndexOfFrom(s, ':', from)
    case None => |s|
    case Some(j) => j
  }

  /**
    The successive matches of the field pattern: a tag, then a value of one or more
    characters other than ':' that must be followed by the next tag or the end of the
    text. Since the value cannot hold a ':', it is the whole run up to the next ':';
    where that run is empty or not followed by a tag, no match starts at this position.
  */
  function FieldMatches(s: string, from: nat): (cs: seq<Capture>)
    decreases |s| - from
    ensures forall k :: 0 <= k < |cs| ==> cs[k].value != [] && ':' !in cs[k].value
  {
    if from >= |s| then []
    else
      match TagAt(s, from)
      case None => FieldMatches(s, from + 1)
      case Some(n) =>
        var start := from + n + 2;
        var end := ColonFreeEnd(s, start);
        if end > start && (end == |s| || TagAt(s, end).Some?) then
          [Capture(s[from + 1..from + n + 1], s[start..end])] + FieldMatches(s, end)
        else FieldMatches(s, from + 1)
  }

  /**
    A text-block field: named from the table, its value trimmed, typed by
    `infer_fin_type` on the trimmed value, and written back as ":tag: value".
  */
  function TextField(c: Capture): ParsedField {
    var value := Trim(c.value);
    ParsedField(FieldName(c.tag), StringValue(value), InferFinType(c.tag, value), ":" + c.tag + ": " + value, None)
  }

  /** The fields of a run of captures, in order. */
  function TextFields(cs: seq<Capture>): (fs: seq<ParsedField>)
    ensures |fs| == |cs|
  {
    if cs == [] then [] else TextFields(cs[..|cs| - 1]) + [TextField(cs[|cs| - 1])]
  }

  /** Each capture becomes the field at its own position. */
  lemma {:induction false} TextFieldsAt(cs: seq<Capture>, k: nat)
    requires k < |cs|
    ensures TextFields(cs)[k] == TextField(cs[k])
    decreases |cs|
  {
    if k < |cs| - 1 {
      TextFieldsAt(cs[..|cs| - 1], k);
    }
  }

  lemma TextFieldsAppend(cs: seq<Capture>, c: Capture)
    ensures TextFields(cs + [c]) == TextFields(cs) + [TextField(c)]
  {
    assert (cs + [c])[..|cs|] == cs;
  }

  function GroupFields(gs: seq<seq<Capture>>): (fss: seq<seq<ParsedField>>)
    ensures |fss| == |gs|
  {
    if gs == [] then [] else GroupFields(gs[..|gs| - 1]) + [TextFields(gs[|gs| - 1])]
  }

  lemma GroupFieldsAppend(gs: seq<seq<Capture>>, g: seq<Capture>)
    ensures GroupFields(gs + [g]) == GroupFields(gs) + [TextFields(g)]
  {
    assert (gs + [g])[..|gs|] == gs;
  }

  function Concat<T>(gs: seq<seq<T>>): seq<T> {
    if gs == [] then [] else Concat(gs[..|gs| - 1]) + gs[|gs| - 1]
  }

  lemma ConcatAppend<T>(gs: seq<seq<T>>, g: seq<T>)
    ensures Concat(gs + [g]) == Concat(gs) + g
  {
    assert (gs + [g])[..|gs|] == gs;
  }

  predicate NoBoundary(cs: seq<Capture>) {
    forall k :: 0 <= k < |cs| ==> !IsGroupBoundary(cs[k].tag)
  }

  /** A finished group: non-empty, closed by a boundary tag, with no boundary before it. */
  predicate ClosedGroup(group: seq<Capture>) {
    group != [] && IsGroupBoundary(group[|group| - 1].tag) && NoBoundary(group[..|group| - 1])
  }

  /** The groups the loop of `parse_block4` has closed so far and the group it holds open. */
  datatype Grouping = Grouping(closed: seq<seq<Capture>>, open: seq<Capture>)

  /** A capture joins the open group, and a boundary tag closes it. */
  function AddToGroup(g: Grouping, c: Capture): Grouping {
    if IsGroupBoundary(c.tag) then Grouping(g.closed + [g.open + [c]], [])
    else Grouping(g.closed, g.open + [c])
  }

  function GroupingOf(cs: seq<Capture>): Grouping {
    if cs == [] then Grouping([], []) else AddToGroup(GroupingOf(cs[..|cs| - 1]), cs[|cs| - 1])
  }

  /** The groups of a run of captures: the closed ones, then the open one unless it is empty. */
  function Groups(cs: seq<Capture>): seq<seq<Capture>> {
    var g := GroupingOf(cs);
    if g.open == [] then g.closed else g.closed + [g.open]
  }

  /** What the grouping keeps as it goes: every capture once and in order, every closed group finished, no boundary left open. */
  predicate WellGrouped(g: Grouping, cs: seq<Capture>) {
    Concat(g.closed) + g.open == cs
    && NoBoundary(g.open)
    && forall i :: 0 <= i < |g.closed| ==> ClosedGroup(g.closed[i])
  }

  lemma {:induction false} GroupingWellGrouped(cs: seq<Capture>)
    ensures WellGrouped(GroupingOf(cs), cs)
    decreases |cs|
  {
    if cs != [] {
      var prefix, c := cs[..|cs| - 1], cs[|cs| - 1];
      GroupingWellGrouped(prefix);
      var g := GroupingOf(prefix);
      assert prefix + [c] == cs;
      if IsGroupBoundary(c.tag) {
        var group := g.open + [c];
        ConcatAppend(g.closed, group);
        assert group[..|group| - 1] == g.open;
        var closed := g.closed + [group];
        forall i | 0 <= i < |closed|
          ensures ClosedGroup(closed[i])
        {
          if i < |g.closed| {
            assert closed[i] == g.closed[i];
          }
        }
      } else {
        var open := g.open + [c];
        forall k | 0 <= k < |open|
          ensures !IsGroupBoundary(open[k].tag)
        {
          if k < |g.open| {
            assert open[k] == g.open[k];
          }
        }
      }
    }
  }

  /**
    `parse_block4` cuts the fields after every boundary tag: the groups hold every
    capture once and in order, each group is non-empty and holds a boundary tag at most
    as its last field, and every group but the last ends with one.
  */
  lemma GroupsCutAtBoundaries(cs: seq<Capture>)
    ensures Concat(Groups(cs)) == cs
    ensures forall i :: 0 <= i < |Groups(cs)| - 1 ==> ClosedGroup(Groups(cs)[i])
    ensures Groups(cs) != [] ==> var last := Groups(cs)[|Groups(cs)| - 1];
      last != [] && NoBoundary(last[..|last| - 1])
  {
    var g := GroupingOf(cs);
    GroupingWellGrouped(cs);
    if g.open != [] {
      ConcatAppend(g.closed, g.open);
      var gs := g.closed + [g.open];
      assert forall i :: 0 <= i < |gs| - 1 ==> gs[i] == g.closed[i];
      var last := g.open;
      assert forall k :: 0 <= k < |last| - 1 ==> last[..|last| - 1][k] == last[k];
    } else {
      assert Concat(g.closed) + [] == Concat(g.closed);
    }
  }

  /** There are no groups exactly when there are no captures. */
  lemma GroupsEmpty(cs: seq<Capture>)
    ensures Groups(cs) == [] <==> cs == []
  {
  }

  /** What `parse_block4` returns: the field groups, or one empty group when there are no fields. */
  function TextBlockGroups(content: string): seq<seq<ParsedField>> {
    var cs := FieldMatches(content, 0);
    if cs == [] then [[]] else GroupFields(Groups(cs))
  }

  /**
    One turn of the loop of `parse_block4`: the capture's field joins the current group,
    and a boundary tag closes that group.
  */
  method AddTextField(cs: seq<Capture>, idx: nat, fieldGroups: seq<seq<ParsedField>>, currentGroup: seq<ParsedField>)
    returns (groupsNow: seq<seq<ParsedField>>, currentNow: seq<ParsedField>)
    requires idx < |cs|
    requires var g := GroupingOf(cs[..idx]); fieldGroups == GroupFields(g.closed) && currentGroup == TextFields(g.open)
    ensures var g := GroupingOf(cs[..idx + 1]); groupsNow == GroupFields(g.closed) && currentNow == TextFields(g.open)
  {
    ghost var g := GroupingOf(cs[..idx]);
    var c := cs[idx];
    assert cs[..idx + 1][..idx] == cs[..idx];
    TextFieldsAppend(g.open, c);
    groupsNow, currentNow := fieldGroups, currentGroup + [TextField(c)];
    if IsGroupBoundary(c.tag) && currentNow != [] {
      GroupFieldsAppend(g.closed, g.open + [c]);
      groupsNow, currentNow := groupsNow + [currentNow], [];
    }
  }

  /** The end of `parse_block4`: the open group is kept unless empty, and no fields at all give one empty group. */
  method CloseTextBlock(cs: seq<Capture>, fieldGroups: seq<seq<ParsedField>>, currentGroup: seq<ParsedField>)
    returns (groups: seq<seq<ParsedField>>)
    requires var g := GroupingOf(cs); fieldGroups == GroupFields(g.closed) && currentGroup == TextFields(g.open)
    ensures groups == if cs == [] then [[]] else GroupFields(Groups(cs))
  {
    ghost var g := GroupingOf(cs);
    groups := fieldGroups;
    if currentGroup != [] {
      GroupFieldsAppend(g.closed, g.open);
      groups := groups + [currentGroup];
    }
    GroupsEmpty(cs);
    if groups == [] {
      groups := groups + [[]];
    }
  }

  /** `parse_block4`. */
  method ParseBlock4(content: string) returns (fieldGroups: seq<seq<ParsedField>>)
    ensures fieldGroups == TextBlockGroups(content)
  {
    fieldGroups := [];
    var currentGroup: seq<ParsedField> := [];
    var captures := FieldMatches(content, 0);
    for idx := 0 to |captures|
      invariant var g := GroupingOf(captures[..idx]);
        fieldGroups == GroupFields(g.closed) && currentGroup == TextFields(g.open)
    {
      fieldGroups, currentGroup := AddTextField(captures, idx, fieldGroups, currentGroup);
    }
    assert captures[..|captures|] == captures;
    fieldGroups := CloseTextBlock(captures, fieldGroups, currentGroup);
  }

  // ---------------------------------------------------------------- assembly

  /** A record of the message before it is numbered: its kind, its fields and its raw text. */
  datatype Section = Section(kind: RecordKind, fields: seq<ParsedField>, raw: string)

  /** The raw text of a header or trailer record: the block written back as `{n:content}`. */
  function BlockText(n: char, content: string): string {
    "{" + [n] + ":" + content + "}"
  }

  function BasicHeaderSection(blocks: map<char, string>): seq<Section> {
    if '1' in blocks then [Section(Header, LayoutFields(blocks['1'], BasicHeaderLayout), BlockText('1', blocks['1']))]
    else []
  }

  function ApplicationHeaderSection(blocks: map<char, string>): seq<Section> {
    if '2' in blocks then [Section(Header, ApplicationHeader(blocks['2']), BlockText('2', blocks['2']))]
    else []
  }

  function UserHeaderSection(blocks: map<char, string>): seq<Section> {
    if '3' in blocks then [Section(Header, SubTagFieldList(blocks['3'], ThreeDigits, UserHeaderNames), BlockText('3', blocks['3']))]
    else []
  }

  /** One transaction per field group, each with the whole text block as its raw text. */
  function TransactionSections(groups: seq<seq<ParsedField>>, raw: string): seq<Section> {
    seq(|groups|, g requires 0 <= g < |groups| => Section(Transaction, groups[g], raw))
  }

  lemma TransactionSectionsAppend(groups: seq<seq<ParsedField>>, group: seq<ParsedField>, raw: string)
    ensures TransactionSections(groups + [group], raw) == TransactionSections(groups, raw) + [Section(Transaction, group, raw)]
  {
    assert forall g :: 0 <= g < |groups| ==> (groups + [group])[g] == groups[g];
  }

  function TextSections(blocks: map<char, string>): seq<Section> {
    if '4' in blocks then TransactionSections(TextBlockGroups(blocks['4']), blocks['4']) else []
  }

  function TrailerSection(blocks: map<char, string>): seq<Section> {
    if '5' in blocks then [Section(Footer, SubTagFieldList(blocks['5'], ThreeCapitals, TrailerNames), BlockText('5', blocks['5']))]
    else []
  }

  /** The header sections: blocks 1, 2 and 3, each when the message has it. */
  function HeaderSections(blocks: map<char, string>): seq<Section> {
    BasicHeaderSection(blocks) + ApplicationHeaderSection(blocks) + UserHeaderSection(blocks)
  }

  /** The sections of a message in the order `parse_fin` emits them: blocks 1, 2, 3, the groups of block 4, block 5. */
  function Sections(blocks: map<char, string>): seq<Section> {
    HeaderSections(blocks) + TextSections(blocks) + TrailerSection(blocks)
  }

  /** A section numbered `index`, valid and without errors. */
  function RecordOf(index: nat, s: Section): ParsedRecord {
    ParsedRecord(index, s.fields, s.raw, s.kind, true, None)
  }

  /** The sections numbered from 0 in order. */
  function Numbered(ss: seq<Section>): seq<ParsedRecord> {
    seq(|ss|, i requires 0 <= i < |ss| => RecordOf(i, ss[i]))
  }

  lemma NumberedAppend(ss: seq<Section>, s: Section)
    ensures Numbered(ss + [s]) == Numbered(ss) + [RecordOf(|ss|, s)]
  {
    assert forall i :: 0 <= i < |ss| ==> (ss + [s])[i] == ss[i];
  }

  /** The names of some fields. */
  function NamesOf(fields: seq<ParsedField>): set<string> {
    set j | 0 <= j < |fields| :: fields[j].name
  }

  lemma NamesOfAppend(fields: seq<ParsedField>, f: ParsedField)
    ensures NamesOf(fields + [f]) == NamesOf(fields) + {f.name}
  {
    assert forall j :: 0 <= j < |fields| ==> (fields + [f])[j] == fields[j];
    assert (fields + [f])[|fields|] == f;
  }

  /** The names of the fields of some records. */
  function FieldNames(records: seq<ParsedRecord>): set<string> {
    set i, j | 0 <= i < |records| && 0 <= j < |records[i].fields| :: records[i].fields[j].name
  }

  lemma FieldNamesAppend(records: seq<ParsedRecord>, r: ParsedRecord)
    ensures FieldNames(records + [r]) == FieldNames(records) + NamesOf(r.fields)
  {
    var all := records + [r];
    assert forall i :: 0 <= i < |records| ==> all[i] == records[i];
    assert all[|records|] == r;
    forall name | name in FieldNames(all)
      ensures name in FieldNames(records) + NamesOf(r.fields)
    {
      var i, j :| 0 <= i < |all| && 0 <= j < |all[i].fields| && all[i].fields[j].name == name;
      if i == |records| {
        assert r.fields[j].name == name;
      }
    }
  }

  /**
    What `parse_fin` returns for the blocks of a message of `size` bytes: the numbered
    sections, the set of their field names, and counts that leave out the trailer
    record, which is pushed without advancing the record index.
  */
  function FinDataOf(blocks: map<char, string>, size: nat, config: ParserConfig, elapsed: real): ParsedData {
    var records := Numbered(Sections(blocks));
    var counted := |Sections(blocks)| - |TrailerSection(blocks)|;
    ParsedData(config, records, Unordered(FieldNames(records)), EngineMetadata(counted, counted, 0, elapsed, size))
  }

  function FinData(data: string, config: ParserConfig, elapsed: real): ParsedData {
    FinDataOf(BlockMap(data), Utils.CalculateSize(data), config, elapsed)
  }

  /** A text block always gives at least one group, empty when it has no fields. */
  lemma TextBlockGroupsNonEmpty(content: string)
    ensures |TextBlockGroups(content)| >= 1
  {
    GroupsEmpty(FieldMatches(content, 0));
  }

  /** The rank of a record kind in the order `parse_fin` emits them. */
  function KindRank(k: RecordKind): nat {
    match k
    case Header => 0
    case Transaction => 1
    case Footer => 2
    case Data => 3
  }

  /** Headers, then transactions, then footers, numbered in order, keep that order. */
  lemma {:induction false} NumberedKinds(h: seq<Section>, t: seq<Section>, tr: seq<Section>)
    requires forall i :: 0 <= i < |h| ==> h[i].kind == Header
    requires forall i :: 0 <= i < |t| ==> t[i].kind == Transaction
    requires forall i :: 0 <= i < |tr| ==> tr[i].kind == Footer
    requires |tr| <= 1
    ensures var rs := Numbered(h + t + tr);
      (forall i :: 0 <= i < |rs| ==> rs[i].index == i && rs[i].isValid && rs[i].errors.None? && rs[i].kind != Data)
      && (forall i, j :: 0 <= i < j < |rs| ==> KindRank(rs[i].kind) <= KindRank(rs[j].kind))
      && (forall i :: 0 <= i < |rs| - 1 ==> rs[i].kind != Footer)
      && (tr != [] <==> rs != [] && rs[|rs| - 1].kind == Footer)
      && (forall g :: 0 <= g < |t| ==> rs[|h| + g] == RecordOf(|h| + g, t[g]))
  {
    var ss := h + t + tr;
    var rs := Numbered(ss);
    assert forall i :: 0 <= i < |h| ==> ss[i] == h[i];
    assert forall i :: |h| <= i < |h| + |t| ==> ss[i] == t[i - |h|];
    assert forall i :: |h| + |t| <= i < |ss| ==> ss[i] == tr[i - |h| - |t|];
    assert forall i :: 0 <= i < |rs| ==> rs[i] == RecordOf(i, ss[i]);
  }

  lemma SectionParts(blocks: map<char, string>)
    ensures forall i :: 0 <= i < |HeaderSections(blocks)| ==> HeaderSections(blocks)[i].kind == Header
    ensures forall i :: 0 <= i < |TextSections(blocks)| ==> TextSections(blocks)[i].kind == Transaction
    ensures forall i :: 0 <= i < |TrailerSection(blocks)| ==> TrailerSection(blocks)[i].kind == Footer
    ensures |TrailerSection(blocks)| <= 1 && (TrailerSection(blocks) != [] <==> '5' in blocks)
  {
  }

  /**
    `parse_fin` numbers its records from 0, all valid and without errors; header records
    come first, then transaction records, then the footer, which is the last record
    exactly when the message has a trailer block.
  */
  lemma FinRecordKinds(blocks: map<char, string>, size: nat, config: ParserConfig, elapsed: real)
    ensures var rs := FinDataOf(blocks, size, config, elapsed).records;
      (forall i :: 0 <= i < |rs| ==> rs[i].index == i && rs[i].isValid && rs[i].errors.None? && rs[i].kind != Data)
      && (forall i, j :: 0 <= i < j < |rs| ==> KindRank(rs[i].kind) <= KindRank(rs[j].kind))
      && (forall i :: 0 <= i < |rs| - 1 ==> rs[i].kind != Footer)
      && ('5' in blocks <==> rs != [] && rs[|rs| - 1].kind == Footer)
  {
    SectionParts(blocks);
    NumberedKinds(HeaderSections(blocks), TextSections(blocks), TrailerSection(blocks));
  }

  /**
    The counts of `parse_fin`: every record is valid, and the total leaves out the
    footer, so it falls one short of the number of records when there is a trailer.
  */
  lemma FinCounts(blocks: map<char, string>, size: nat, config: ParserConfig, elapsed: real)
    ensures var d := FinDataOf(blocks, size, config, elapsed);
      d.metadata.totalRecords == d.metadata.validRecords && d.metadata.invalidRecords == 0
      && d.metadata.totalRecords == |d.records| - (if '5' in blocks then 1 else 0)
      && d.metadata.fileSize == Some(size)
  {
    SectionParts(blocks);
  }

  /** Numbering keeps the transaction sections of a message, in order, after its headers. */
  lemma {:induction false} NumberedTransactions(h: seq<Section>, groups: seq<seq<ParsedField>>, raw: string, tr: seq<Section>)
    ensures var rs := Numbered(h + TransactionSections(groups, raw) + tr);
      |h| + |groups| <= |rs|
      && forall g :: 0 <= g < |groups| ==> rs[|h| + g] == ParsedRecord(|h| + g, groups[g], raw, Transaction, true, None)
  {
    var t := TransactionSections(groups, raw);
    var ss := h + t + tr;
    assert forall g :: 0 <= g < |groups| ==> ss[|h| + g] == t[g];
  }

  /**
    A message with a text block has at least one transaction record, even when the block
    holds no fields; the transaction records follow the headers, one per field group in
    order, each carrying the whole text block as its raw text.
  */
  lemma FinTransactions(blocks: map<char, string>, size: nat, config: ParserConfig, elapsed: real)
    requires '4' in blocks
    ensures var rs, groups, h := FinDataOf(blocks, size, config, elapsed).records, TextBlockGroups(blocks['4']), |HeaderSections(blocks)|;
      |groups| >= 1 && h + |groups| <= |rs|
      && forall g :: 0 <= g < |groups| ==> rs[h + g] == ParsedRecord(h + g, groups[g], blocks['4'], Transaction, true, None)
  {
    TextBlockGroupsNonEmpty(blocks['4']);
    NumberedTransactions(HeaderSections(blocks), TextBlockGroups(blocks['4']), blocks['4'], TrailerSection(blocks));
  }

  /** The inner loops of `parse_fin`: every field name joins the header set. */
  method AddNames(headers: set<string>, fields: seq<ParsedField>) returns (names: set<string>)
    ensures names == headers + NamesOf(fields)
  {
    names := headers;
    for j := 0 to |fields|
      invariant names == headers + NamesOf(fields[..j])
    {
      assert fields[..j + 1] == fields[..j] + [fields[j]];
      NamesOfAppend(fields[..j], fields[j]);
      names := names + {fields[j].name};
    }
    assert fields[..|fields|] == fields;
  }

  /** Pushes the record of one section at `index`, the number of records so far, and collects its field names. */
  method PushRecord(records: seq<ParsedRecord>, headers: set<string>, ghost sections: seq<Section>,
                    index: nat, kind: RecordKind, fields: seq<ParsedField>, raw: string)
    returns (recordsNow: seq<ParsedRecord>, headersNow: set<string>)
    requires records == Numbered(sections) && headers == FieldNames(records) && index == |records|
    ensures recordsNow == Numbered(sections + [Section(kind, fields, raw)]) && |recordsNow| == |records| + 1
    ensures headersNow == FieldNames(recordsNow)
  {
    headersNow := AddNames(headers, fields);
    NumberedAppend(sections, Section(kind, fields, raw));
    FieldNamesAppend(records, RecordOf(index, Section(kind, fields, raw)));
    recordsNow := records + [ParsedRecord(index, fields, raw, kind, true, None)];
  }

  /** The loop of `parse_fin` over the field groups of the text block. */
  method PushTransactions(records: seq<ParsedRecord>, headers: set<string>, ghost sections: seq<Section>,
                          recordIndex: nat, groups: seq<seq<ParsedField>>, raw: string)
    returns (recordsNow: seq<ParsedRecord>, headersNow: set<string>, indexNow: nat)
    requires records == Numbered(sections) && headers == FieldNames(records) && recordIndex == |records|
    ensures recordsNow == Numbered(sections + TransactionSections(groups, raw))
    ensures headersNow == FieldNames(recordsNow) && indexNow == |recordsNow| == |records| + |groups|
  {
    recordsNow, headersNow, indexNow := records, headers, recordIndex;
    assert sections + TransactionSections(groups[..0], raw) == sections;
    for g := 0 to |groups|
      invariant recordsNow == Numbered(sections + TransactionSections(groups[..g], raw))
      invariant headersNow == FieldNames(recordsNow) && indexNow == |recordsNow|
    {
      ghost var before := sections + TransactionSections(groups[..g], raw);
      assert groups[..g + 1] == groups[..g] + [groups[g]];
      TransactionSectionsAppend(groups[..g], groups[g], raw);
      assert before + [Section(Transaction, groups[g], raw)] == sections + TransactionSections(groups[..g + 1], raw);
      recordsNow, headersNow := PushRecord(recordsNow, headersNow, before, indexNow, Transaction, groups[g], raw);
      indexNow := indexNow + 1;
    }
    assert groups[..|groups|] == groups;
  }

  /** Blocks 1, 2 and 3 of `parse_fin`: one header record for each that the message has. */
  method PushHeaders(blocks: map<char, string>)
    returns (records: seq<ParsedRecord>, headers: set<string>, recordIndex: nat)
    ensures records == Numbered(HeaderSections(blocks))
    ensures headers == FieldNames(records) && recordIndex == |records|
  {
    records, headers, recordIndex := [], {}, 0;
    ghost var sections: seq<Section> := [];
    if '1' in blocks {
      var fields := ParseBlock1(blocks['1']);
      records, headers := PushRecord(records, headers, sections, recordIndex, Header, fields, BlockText('1', blocks['1']));
      recordIndex := recordIndex + 1;
    }
    sections := sections + BasicHeaderSection(blocks);
    if '2' in blocks {
      var fields := ParseBlock2(blocks['2']);
      records, headers := PushRecord(records, headers, sections, recordIndex, Header, fields, BlockText('2', blocks['2']));
      recordIndex := recordIndex + 1;
    }
    sections := sections + ApplicationHeaderSection(blocks);
    if '3' in blocks {
      var fields := ParseBlock3(blocks['3']);
      records, headers := PushRecord(records, headers, sections, recordIndex, Header, fields, BlockText('3', blocks['3']));
      recordIndex := recordIndex + 1;
    }
    sections := sections + UserHeaderSection(blocks);
  }

  /** Block 4 of `parse_fin`: one transaction record per field group. */
  method PushTextBlock(records: seq<ParsedRecord>, headers: set<string>, ghost sections: seq<Section>,
                       recordIndex: nat, blocks: map<char, string>)
    returns (recordsNow: seq<ParsedRecord>, headersNow: set<string>, indexNow: nat)
    requires records == Numbered(sections) && headers == FieldNames(records) && recordIndex == |records|
    ensures recordsNow == Numbered(sections + TextSections(blocks))
    ensures headersNow == FieldNames(recordsNow) && indexNow == |recordsNow| == |records| + |TextSections(blocks)|
  {
    recordsNow, headersNow, indexNow := records, headers, recordIndex;
    if '4' in blocks {
      var messageFields := ParseBlock4(blocks['4']);
      recordsNow, headersNow, indexNow := PushTransactions(records, headers, sections, recordIndex, messageFields, blocks['4']);
    } else {
      assert sections + TextSections(blocks) == sections;
    }
  }

  /** Block 5 of `parse_fin`: the trailer record, pushed without advancing the record index. */
  method PushTrailer(records: seq<ParsedRecord>, headers: set<string>, ghost sections: seq<Section>,
                     recordIndex: nat, blocks: map<char, string>)
    returns (recordsNow: seq<ParsedRecord>, headersNow: set<string>)
    requires records == Numbered(sections) && headers == FieldNames(records) && recordIndex == |records|
    ensures recordsNow == Numbered(sections + TrailerSection(blocks))
    ensures headersNow == FieldNames(recordsNow)
  {
    recordsNow, headersNow := records, headers;
    if '5' in blocks {
      var fields := ParseBlock5(blocks['5']);
      recordsNow, headersNow := PushRecord(records, headers, sections, recordIndex, Footer, fields, BlockText('5', blocks['5']));
    } else {
      assert sections + TrailerSection(blocks) == sections;
    }
  }

  /** Blocks 4 and 5 of `parse_fin`: the transactions, then the trailer, which does not advance the record index. */
  method PushBody(records: seq<ParsedRecord>, headers: set<string>, ghost sections: seq<Section>,
                  recordIndex: nat, blocks: map<char, string>)
    returns (recordsNow: seq<ParsedRecord>, headersNow: set<string>, indexNow: nat)
    requires records == Numbered(sections) && headers == FieldNames(records) && recordIndex == |records|
    ensures recordsNow == Numbered(sections + TextSections(blocks) + TrailerSection(blocks))
    ensures headersNow == FieldNames(recordsNow) && indexNow == |records| + |TextSections(blocks)|
  {
    recordsNow, headersNow, indexNow := PushTextBlock(records, headers, sections, recordIndex, blocks);
    recordsNow, headersNow := PushTrailer(recordsNow, headersNow, sections + TextSections(blocks), indexNow, blocks);
  }

  /** The record assembly of `parse_fin`, once the blocks are split out. */
  method AssembleFin(blocks: map<char, string>, totalBytes: nat, config: ParserConfig, elapsed: real)
    returns (parsed: ParsedData)
    ensures parsed == FinDataOf(blocks, totalBytes, config, elapsed)
  {
    var records, headers, recordIndex := PushHeaders(blocks);
    ghost var sections := HeaderSections(blocks);
    records, headers, recordIndex := PushBody(records, headers, sections, recordIndex, blocks);
    parsed := ParsedData(config, records, Unordered(headers),
                         EngineMetadata(recordIndex, recordIndex, 0, elapsed, totalBytes));
  }

  /**
    `parse_fin` with the corrected block-1 guard and the intended block-4 field pattern:
    it returns the dataset of the block map and has no error path. The program as
    written panics, rather than returning, on a basic header of 16 to 18 characters
    (the slice past the guard) and on any message with a block 4 (the field pattern
    does not compile). The elapsed time is a parameter.
  */
  method ParseFin(data: string, config: ParserConfig, elapsed: real) returns (result: Result<ParsedData, ParseError>)
    ensures result == Ok(FinData(data, config, elapsed))
  {
    var totalBytes := Utils.CalculateSize(data);
    var blocks := ParseBlocks(data);
    var parsed := AssembleFin(blocks, totalBytes, config, elapsed);
    result := Ok(parsed);
  }
}
