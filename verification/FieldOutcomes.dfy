/** What the fields of an intake accept and keep, key by key. */
module FieldOutcomes {
  import opened Common
  import opened IntakeFields

  // ---- texts --------------------------------------------------------------------------------------

  predicate AllBlank(text: string) {
    forall i :: 0 <= i < |text| ==> text[i] == ' '
  }

  lemma {:induction false} TrimLeftCuts(text: string) returns (n: nat)
    ensures n <= |text| && AllBlank(text[..n]) && TrimLeft(text) == text[n..]
  {
    if text != [] && text[0] == ' ' {
      var rest := TrimLeftCuts(text[1..]);
      n := rest + 1;
      assert text[..n] == [text[0]] + text[1..][..rest];
    } else {
      n := 0;
    }
  }

  lemma {:induction false} TrimRightCuts(text: string) returns (n: nat)
    ensures n <= |text| && AllBlank(text[n..]) && TrimRight(text) == text[..n]
  {
    n := |text|;
    if text != [] && text[|text| - 1] == ' ' {
      n := TrimRightCuts(text[..|text| - 1]);
      assert text[n..] == text[..|text| - 1][n..] + [text[|text| - 1]];
      assert text[..|text| - 1][..n] == text[..n];
    }
  }

  /** Trimming leaves a part of the text with only blanks around it and none at its ends. */
  lemma TrimCuts(text: string) returns (from: nat, to: nat)
    ensures from <= to <= |text| && Trim(text) == text[from..to]
    ensures AllBlank(text[..from]) && AllBlank(text[to..])
    ensures from < to ==> text[from] != ' ' && text[to - 1] != ' '
  {
    from := TrimLeftCuts(text);
    var left := text[from..];
    var n := TrimRightCuts(left);
    to := from + n;
    assert left[n..] == text[to..];
    assert left[..n] == text[from..to];
    TrimLeftLeaves(text);
    TrimRightLeaves(left);
    if n > 0 {
      assert left[0] == text[from] && left[n - 1] == text[to - 1];
    }
  }

  /** A text is blank when it holds nothing but blanks. */
  lemma BlankIff(text: string)
    ensures Trim(text) == [] <==> AllBlank(text)
  {
    var from, to := TrimCuts(text);
    assert text == text[..from] + text[from..to] + text[to..];
    assert from < to ==> text[from] != ' ';
  }

  /** Tab, line feed, vertical tab, form feed, carriage return and the blank. */
  lemma WhiteIff(c: char)
    ensures White(c) <==> c as int in {9, 10, 11, 12, 13, 32}
  {
  }

  function Letters(text: string): string {
    if text == [] then []
    else Letters(text[..|text| - 1]) + if White(text[|text| - 1]) then [] else [text[|text| - 1]]
  }

  /** Collapsing keeps the letters */
  lemma {:induction false} CollapseKeepsLetters(text: string)
    ensures Letters(Collapse(text)) == Letters(text)
  {
    if text != [] {
      var n := |text| - 1;
      CollapseKeepsLetters(text[..n]);
      var before, after := Collapse(text[..n]), Collapse(text);
      if after != before {
        assert after[..|after| - 1] == before;
      }
    }
  }

  /** and puts one blank for every stretch of white space. */
  lemma {:induction false} CollapseEffect(text: string)
    ensures Collapse(text) == [] <==> text == []
    ensures text != [] ==> (Collapse(text)[|Collapse(text)| - 1] == ' ' <==> White(text[|text| - 1]))
    ensures forall i :: 0 <= i < |Collapse(text)| && White(Collapse(text)[i]) ==>
              Collapse(text)[i] == ' ' && (i > 0 ==> Collapse(text)[i - 1] != ' ')
  {
    if text != [] {
      CollapseEffect(text[..|text| - 1]);
    }
  }

  // ---- what the caller said -------------------------------------------------------------------------

  /** A number to call back: a plus sign or none, a digit, and 6 to 22 more digits, blanks, brackets or dashes. */
  predicate IsNumber(text: string) {
    var k := if text != [] && text[0] == '+' then 1 else 0;
    && k + 7 <= |text| && |text| <= k + 23 && '0' <= text[k] <= '9'
    && forall i :: k <= i < |text| ==> text[i] in "0123456789 ()-"
  }

  lemma NumberIff(text: string)
    ensures CallbackNumber(text) <==> IsNumber(text)
  {
    if text != [] && text[0] == '+' {
      PartIff(text, 1);
    } else {
      assert text[0..] == text;
      PartIff(text, 0);
    }
  }

  lemma PartIff(text: string, k: nat)
    requires k <= |text|
    ensures (forall i :: 0 <= i < |text[k..]| ==> Digit(text[k..][i]) || text[k..][i] in {' ', '(', ')', '-'})
            <==> forall i :: k <= i < |text| ==> text[i] in "0123456789 ()-"
  {
    var number := text[k..];
    forall i | 0 <= i < |number|
      ensures number[i] in "0123456789 ()-" <==> Digit(number[i]) || number[i] in {' ', '(', ')', '-'}
    {
      CharactersOfNumber(number[i]);
    }
    assert forall i :: 0 <= i < |number| ==> number[i] == text[i + k];
    assert forall i :: k <= i < |text| ==> text[i] == number[i - k];
  }

  lemma CharactersOfNumber(c: char)
    ensures c in "0123456789 ()-" <==> Digit(c) || c in {' ', '(', ')', '-'}
  {
    var all := "0123456789 ()-";
    assert all[0] == '0' && all[1] == '1' && all[2] == '2' && all[3] == '3' && all[4] == '4' && all[5] == '5' && all[6] == '6'
           && all[7] == '7' && all[8] == '8' && all[9] == '9' && all[10] == ' ' && all[11] == '(' && all[12] == ')' && all[13] == '-';
    if Digit(c) {
      assert all[c as int - '0' as int] == c;
    }
  }

  /** The trimmed text that a key of the call takes. */
  predicate Takes(key: string, text: string) {
    || (key in {"customerName", "chainName", "storeName", "storeId", "productType", "productModel", "serialNumber", "warrantyStatus"}
        && |text| <= 160)
    || (key == "callbackNumber" && |text| <= 160 && (text == "" || IsNumber(text)))
    || (key == "serviceAddress" && |text| <= 500)
    || (key == "exactFailure" && |text| <= 2000)
    || (key == "faultDescription" && |text| <= 10000)
    || (key == "urgency" && (text == "low" || text == "normal" || text == "high" || text == "urgent"))
  }

  predicate Taken(field: (string, Option<string>)) {
    field.1.Some? && Takes(field.0, Trim(field.1.value))
  }

  lemma TakenIff(key: string, value: Option<string>)
    ensures FieldError(key, value) == None <==> Taken((key, value))
  {
    if value.Some? {
      NumberIff(Trim(value.value));
    }
  }

  /** The error of a field that is not taken. */
  lemma FieldErrorIsTrue(key: string, value: Option<string>)
    requires FieldError(key, value).Some?
    ensures var known := key in {"customerName", "chainName", "storeName", "storeId", "serviceAddress", "faultDescription",
                                 "exactFailure", "productType", "productModel", "serialNumber", "warrantyStatus",
                                 "callbackNumber", "urgency"};
            match FieldError(key, value).value
            case UnsupportedField => !known || value == None
            case FieldTooLong => known && value.Some? && |Trim(value.value)| > 160 && !Taken((key, value))
            case UnsupportedUrgency => key == "urgency" && value.Some? && |Trim(value.value)| <= 160 && !Taken((key, value))
            case InvalidCallback => key == "callbackNumber" && value.Some? && |Trim(value.value)| <= 160 && !IsNumber(Trim(value.value))
            case StoreNotInDirectory => false
  {
    TakenIff(key, value);
    if value.Some? {
      NumberIff(Trim(value.value));
    }
  }

  /** The last text under the key that is not blank. */
  function Said(given: seq<(string, Option<string>)>, key: string): Option<string> {
    if given == [] then None
    else
      var (name, value) := given[|given| - 1];
      if name == key && value.Some? && Trim(value.value) != [] then Some(Trim(value.value)) else Said(given[..|given| - 1], key)
  }

  predicate AllTaken(given: seq<(string, Option<string>)>) {
    forall i :: 0 <= i < |given| ==> Taken(given[i])
  }

  lemma LastTaken(given: seq<(string, Option<string>)>)
    requires given != []
    ensures AllTaken(given) <==> AllTaken(given[..|given| - 1]) && Taken(given[|given| - 1])
  {
    var n := |given| - 1;
    if AllTaken(given[..n]) && Taken(given[n]) {
      forall i | 0 <= i < |given| ensures Taken(given[i]) {
        if i < n { assert Taken(given[..n][i]); }
      }
    }
  }

  /** A request is merged when every field of it is taken. */
  lemma {:induction false} MergedIff(known: Fields, given: seq<(string, Option<string>)>)
    ensures Merged(known, given).Ok? <==> AllTaken(given)
    decreases |given|
  {
    if given != [] {
      var n := |given| - 1;
      MergedIff(known, given[..n]);
      TakenIff(given[n].0, given[n].1);
      LastTaken(given);
    }
  }

  /** Else the first field that is not taken decides the error. */
  lemma {:induction false} FirstErrorDecides(known: Fields, given: seq<(string, Option<string>)>) returns (i: nat)
    requires Merged(known, given).Raised?
    ensures i < |given| && !Taken(given[i]) && FieldError(given[i].0, given[i].1) == Some(Merged(known, given).error)
    ensures forall j :: 0 <= j < i ==> Taken(given[j])
    decreases |given|
  {
    i := |given| - 1;
    if Merged(known, given[..i]).Raised? {
      i := FirstErrorDecides(known, given[..i]);
    } else {
      MergedIff(known, given[..i]);
      TakenIff(given[i].0, given[i].1);
      assert forall j :: 0 <= j < i ==> given[..i][j] == given[j];
    }
  }

  /** Every key then has what was said last under it, or what was known. */
  lemma {:induction false} MergedEffect(known: Fields, given: seq<(string, Option<string>)>, key: string)
    requires Merged(known, given).Ok?
    ensures var fields, said := Merged(known, given).value.0, Said(given, key);
            (if said.Some? then key in fields && fields[key] == said.value
             else (key in fields <==> key in known) && (key in known ==> fields[key] == known[key]))
    decreases |given|
  {
    if given != [] {
      MergedEffect(known, given[..|given| - 1], key);
    }
  }

  /** Nothing is reported as changed if and only if everything said was known. */
  lemma {:induction false} ChangedIff(known: Fields, given: seq<(string, Option<string>)>)
    requires Merged(known, given).Ok?
    ensures var (fields, changed) := Merged(known, given).value;
            && (changed == [] <==> forall i :: 0 <= i < |given| && given[i].1.Some? && Trim(given[i].1.value) != [] ==>
                                     given[i].0 in known && known[given[i].0] == Trim(given[i].1.value))
            && (changed == [] ==> fields == known)
    decreases |given|
  {
    if given != [] {
      var n := |given| - 1;
      ChangedIff(known, given[..n]);
      assert forall i :: 0 <= i < n ==> given[..n][i] == given[i];
      assert given[n].1.Some?;
      var fields := Merged(known, given[..n]).value.0;
      if given[n].0 in fields && fields[given[n].0] == Trim(given[n].1.value) {
        assert fields[given[n].0 := Trim(given[n].1.value)] == fields;
      }
    }
  }

  // ---- the store directory --------------------------------------------------------------------------

  /** A chosen store must be in the directory. */
  lemma StoreIff(fields: Fields, directory: Directory)
    ensures WithStore(fields, directory).Ok? <==> "storeId" in fields ==> fields["storeId"] in directory
    ensures WithStore(fields, directory).Raised? ==> WithStore(fields, directory).error == StoreNotInDirectory
  {
  }

  /** Then its name, and its address and chain where it has them, replace what was there; other keys stay. */
  lemma StoreEffect(fields: Fields, directory: Directory, key: string)
    requires WithStore(fields, directory).Ok?
    ensures var after := WithStore(fields, directory).value;
            var stored := if "storeId" !in fields then None
                          else
                            var store := directory[fields["storeId"]];
                            if key == "storeName" then Some(store.name)
                            else if key == "serviceAddress" then store.address
                            else if key == "chainName" then store.chain
                            else None;
            if stored.Some? then key in after && after[key] == stored.value
            else (key in after <==> key in fields) && (key in fields ==> after[key] == fields[key])
  {
  }

  /** What a capture saves is what was said over what was known, and then the store's. */
  lemma CapturedIff(known: Fields, given: seq<(string, Option<string>)>, directory: Directory)
    ensures var captured, merged := Captured(known, given, directory), Merged(known, given);
            && (captured.Ok? <==> merged.Ok? && WithStore(merged.value.0, directory).Ok?)
            && (captured.Ok? ==> captured.value == (WithStore(merged.value.0, directory).value, merged.value.1))
            && (captured.Raised? ==> captured.error == if merged.Raised? then merged.error else StoreNotInDirectory)
  {
  }

  /** The text under the key holds something other than blanks. */
  predicate HasWord(fields: Fields, key: string) {
    key in fields && exists i :: 0 <= i < |fields[key]| && fields[key][i] != ' '
  }

  lemma HasWordIff(fields: Fields, key: string)
    ensures NonBlank(fields, key) <==> HasWord(fields, key)
  {
    if key in fields {
      BlankIff(fields[key]);
    }
  }

  /** A required field is there when it says something; a location can also be a store or coordinates, and a
      warranty must be yes or no. */
  lemma PresentIff(fields: Fields, key: string)
    ensures !Absent(fields, key) <==>
              if key == "serviceLocation" then
                HasWord(fields, "serviceAddress") || "storeId" in fields || ("latitude" in fields && "longitude" in fields)
              else if key == "warrantyStatus" then key in fields && (fields[key] == "yes" || fields[key] == "no")
              else HasWord(fields, key)
  {
    HasWordIff(fields, "serviceAddress");
    HasWordIff(fields, key);
  }

  // ---- the conversation -------------------------------------------------------------------------------

  predicate Hex(text: string) {
    forall i :: 0 <= i < |text| ==> '0' <= text[i] <= '9' || 'a' <= text[i] <= 'f' || 'A' <= text[i] <= 'F'
  }

  /** Groups of 8, 4, 4, 4 and 12 hexadecimal digits. */
  lemma UuidIff(text: string)
    ensures Uuid(text) <==>
              && |text| == 36 && Hex(text[..8]) && text[8] == '-' && Hex(text[9..13]) && text[13] == '-'
              && Hex(text[14..18]) && text[18] == '-' && Hex(text[19..23]) && text[23] == '-' && Hex(text[24..])
  {
    if |text| == 36 {
      var a, b, c, d, e := text[..8], text[9..13], text[14..18], text[19..23], text[24..];
      assert forall i :: 0 <= i < 8 ==> a[i] == text[i];
      assert forall i :: 0 <= i < 4 ==> b[i] == text[i + 9] && c[i] == text[i + 14] && d[i] == text[i + 19];
      assert forall i :: 0 <= i < 12 ==> e[i] == text[i + 24];
      assert forall i :: 9 <= i < 13 ==> text[i] == b[i - 9];
      assert forall i :: 14 <= i < 18 ==> text[i] == c[i - 14];
      assert forall i :: 19 <= i < 23 ==> text[i] == d[i - 19];
      assert forall i :: 24 <= i < 36 ==> text[i] == e[i - 24];
    }
  }

  /** The text that a key of the conversation takes. */
  predicate ChatTakes(key: string, text: string) {
    var length := |Trim(text)|;
    || (key in {"customerName", "storeName", "chainName", "productType", "productModel", "serialNumber"} && 1 <= length <= 160)
    || (key == "customerPhone" && 1 <= length <= 32)
    || (key == "callbackNumber" && 1 <= length <= 32 && IsNumber(Trim(text)))
    || (key == "exactFailure" && 1 <= length <= 2000)
    || (key == "serviceAddress" && 1 <= length <= 500)
    || (key == "faultDescription" && 1 <= length <= 10000)
    || (key == "storeId" && Uuid(text))
    || (key == "urgency" && (text == "low" || text == "normal" || text == "high" || text == "urgent"))
    || (key == "warrantyStatus" && (text == "yes" || text == "no" || text == "unknown"))
  }

  lemma CopiedIff(key: string, text: string)
    ensures Copied(key, text) <==> ChatTakes(key, text)
  {
    NumberIff(Trim(text));
  }

  /** A proposal keeps the texts that are taken, trimmed unless they are from a list, and the coordinates. */
  lemma SanitizedEffect(p: Proposal, key: string)
    ensures var after := Sanitized(p);
            match key
            case "latitude" => if p.latitude.Some? then key in after && after[key] == p.latitude.value else key !in after
            case "longitude" => if p.longitude.Some? then key in after && after[key] == p.longitude.value else key !in after
            case _ =>
              if key in p.texts && ChatTakes(key, p.texts[key]) then
                key in after
                && after[key] == if key in {"storeId", "urgency", "warrantyStatus"} then p.texts[key] else Trim(p.texts[key])
              else key !in after
  {
    if key in p.texts {
      CopiedIff(key, p.texts[key]);
    }
  }

  /** A required field is there for the conversation. */
  predicate PresentInChat(fields: Fields, nationalId: bool, key: string) {
    match key
    case "serviceLocation" =>
      HasWord(fields, "serviceAddress") || HasWord(fields, "storeId") || ("latitude" in fields && "longitude" in fields)
    case "warrantyStatus" => key in fields && (fields[key] == "yes" || fields[key] == "no")
    case "nationalId" => nationalId || HasWord(fields, key)
    case "urgency" => key in fields
    case _ => HasWord(fields, key)
  }

  lemma PresentInChatIff(fields: Fields, nationalId: bool, key: string)
    ensures !AbsentInChat(fields, nationalId, key) <==> PresentInChat(fields, nationalId, key)
  {
    HasWordIff(fields, "serviceAddress");
    HasWordIff(fields, "storeId");
    HasWordIff(fields, key);
  }

  predicate RequiredName(key: string) {
    || key == "customerName" || key == "customerPhone" || key == "nationalId" || key == "chainName" || key == "storeName"
    || key == "serviceLocation" || key == "faultDescription" || key == "exactFailure" || key == "warrantyStatus"
    || key == "callbackNumber" || key == "urgency"
  }

  /** The conversation has all that is required when each of the eleven fields that is required and not waived is there. */
  lemma CompleteInChatIff(fields: Fields, nationalId: bool, required: seq<string>, waived: set<string>)
    ensures CompleteInChat(fields, nationalId, required, waived) <==>
              forall key :: key in required && key !in waived && RequiredName(key) ==> PresentInChat(fields, nationalId, key)
  {
    forall key ensures !AbsentInChat(fields, nationalId, key) <==> PresentInChat(fields, nationalId, key) {
      PresentInChatIff(fields, nationalId, key);
    }
  }
}
