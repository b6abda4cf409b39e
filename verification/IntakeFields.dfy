/** The fields of a voice intake: how service.capture_service_intake merges what the caller said into
    what is known, and what the store directory then puts over it. */
module IntakeFields {
  import opened Common

  type Fields = map<string, string>

  datatype Error = UnsupportedField | FieldTooLong | UnsupportedUrgency | InvalidCallback | StoreNotInDirectory

  datatype Result<T> = Ok(value: T) | Raised(error: Error)

  predicate IntakeKey(key: string) {
    key in {"customerName", "chainName", "storeName", "storeId", "serviceAddress", "faultDescription", "exactFailure",
            "productType", "productModel", "serialNumber", "warrantyStatus", "callbackNumber", "urgency"}
  }

  predicate SupportedUrgency(text: string) {
    text in {"low", "normal", "high", "urgent"}
  }

  function Limit(key: string): nat {
    if key == "faultDescription" then 10000 else if key == "exactFailure" then 2000 else if key == "serviceAddress" then 500 else 160
  }

  predicate PlainNumber(text: string) {
    && 7 <= |text| <= 23 && Digit(text[0])
    && forall i :: 0 <= i < |text| ==> Digit(text[i]) || text[i] in {' ', '(', ')', '-'}
  }

  /** `^\+?[0-9][0-9 ()-]{6,22}$`. */
  predicate CallbackNumber(text: string) {
    PlainNumber(if text != [] && text[0] == '+' then text[1..] else text)
  }

  // ---- merging ------------------------------------------------------------------------------------

  /** One field of the request; None stands for a value that is not a string. */
  function FieldError(key: string, value: Option<string>): Option<Error> {
    if !IntakeKey(key) || value == None then Some(UnsupportedField)
    else if |Trim(value.value)| > Limit(key) then Some(FieldTooLong)
    else if key == "urgency" && !SupportedUrgency(Trim(value.value)) then Some(UnsupportedUrgency)
    else if key == "callbackNumber" && Trim(value.value) != [] && !CallbackNumber(Trim(value.value)) then Some(InvalidCallback)
    else None
  }

  function Merged(known: Fields, given: seq<(string, Option<string>)>): Result<(Fields, seq<string>)> {
    if given == [] then Ok((known, []))
    else
      var n := |given| - 1;
      match Merged(known, given[..n])
      case Raised(error) => Raised(error)
      case Ok((fields, changed)) =>
        var (key, value) := given[n];
        if FieldError(key, value).Some? then Raised(FieldError(key, value).value)
        else if Trim(value.value) == [] then Ok((fields, changed))
        else Ok((fields[key := Trim(value.value)],
                 if key in fields && fields[key] == Trim(value.value) then changed else changed + [key]))
  }

  method Merge(known: Fields, given: seq<(string, Option<string>)>) returns (r: Result<(Fields, seq<string>)>)
    ensures r == Merged(known, given)
  {
    var fields := known;
    var changed: seq<string> := [];
    var i := 0;
    while i < |given|
      invariant 0 <= i <= |given|
      invariant Merged(known, given[..i]) == Ok((fields, changed))
    {
      assert given[..i + 1][..i] == given[..i];
      var (key, value) := given[i];
      if !IntakeKey(key) || value == None {
        RaisedStays(known, given, i + 1);
        return Raised(UnsupportedField);
      }
      var text := Trim(value.value);
      if |text| > Limit(key) {
        RaisedStays(known, given, i + 1);
        return Raised(FieldTooLong);
      }
      if key == "urgency" && !SupportedUrgency(text) {
        RaisedStays(known, given, i + 1);
        return Raised(UnsupportedUrgency);
      }
      if key == "callbackNumber" && text != [] && !CallbackNumber(text) {
        RaisedStays(known, given, i + 1);
        return Raised(InvalidCallback);
      }
      if text != [] {
        if key !in fields || fields[key] != text {
          changed := changed + [key];
        }
        fields := fields[key := text];
      }
      i := i + 1;
    }
    assert given[..i] == given;
    r := Ok((fields, changed));
  }

  /** The first field in error decides. */
  lemma {:induction false} RaisedStays(known: Fields, given: seq<(string, Option<string>)>, n: nat)
    requires n <= |given| && Merged(known, given[..n]).Raised?
    ensures Merged(known, given) == Merged(known, given[..n])
    decreases |given|
  {
    if n < |given| {
      assert given[..|given| - 1][..n] == given[..n];
      RaisedStays(known, given[..|given| - 1], n);
    } else {
      assert given[..n] == given;
    }
  }

  // ---- the store directory --------------------------------------------------------------------------

  /** A store that is not archived; only the address may be NULL or blank. */
  datatype Store = Store(name: string, address: Option<string>, chain: Option<string>)

  type Directory = map<string, Store>

  /** The CHECK constraints on the names of stores and chains. */
  predicate Named(directory: Directory) {
    forall id :: id in directory ==>
      Trim(directory[id].name) != [] && (directory[id].chain.Some? ==> Trim(directory[id].chain.value) != [])
  }

  function Put(fields: Fields, key: string, value: Option<string>): Fields {
    if value.Some? then fields[key := value.value] else fields
  }

  function WithStore(fields: Fields, directory: Directory): Result<Fields> {
    if "storeId" !in fields then Ok(fields)
    else if fields["storeId"] !in directory then Raised(StoreNotInDirectory)
    else
      var store := directory[fields["storeId"]];
      Ok(Put(Put(Put(fields, "storeName", Some(store.name)), "serviceAddress", store.address), "chainName", store.chain))
  }

  /** The fields that a call of capture saves, and the keys it reports as changed. */
  function Captured(known: Fields, given: seq<(string, Option<string>)>, directory: Directory): Result<(Fields, seq<string>)> {
    match Merged(known, given)
    case Raised(error) => Raised(error)
    case Ok((fields, changed)) =>
      match WithStore(fields, directory)
      case Raised(error) => Raised(error)
      case Ok(stored) => Ok((stored, changed))
  }

  /** A required field that the intake does not have yet. */
  predicate Absent(fields: Fields, key: string) {
    if key == "serviceLocation" then
      !NonBlank(fields, "serviceAddress") && "storeId" !in fields && !("latitude" in fields && "longitude" in fields)
    else if key == "warrantyStatus" then "warrantyStatus" !in fields || fields["warrantyStatus"] !in {"yes", "no"}
    else !NonBlank(fields, key)
  }

  function Missing(fields: Fields, required: seq<string>): seq<string> {
    if required == [] then []
    else
      var key := required[|required| - 1];
      Missing(fields, required[..|required| - 1]) + if Absent(fields, key) then [key] else []
  }

  lemma {:induction false} NothingMissing(fields: Fields, required: seq<string>)
    ensures Missing(fields, required) == [] <==> forall i :: 0 <= i < |required| ==> !Absent(fields, required[i])
  {
    if required != [] {
      var n := |required| - 1;
      NothingMissing(fields, required[..n]);
      assert forall i :: 0 <= i < n ==> required[..n][i] == required[i];
    }
  }

  // ---- the fields of a conversation -----------------------------------------------------------------

  /** The text of a number within its range; never blank. */
  type Number = text: string | Trim(text) != [] witness "0"

  /** What the extraction from a WhatsApp conversation proposes: the entries that are strings, and the
      coordinates. */
  datatype Proposal = Proposal(texts: map<string, string>, latitude: Option<Number>, longitude: Option<Number>)

  /** sanitizeIntakeProposal: the longest text of a key that is copied as text. */
  function ProposalLimit(key: string): Option<nat> {
    if key in {"customerName", "storeName", "chainName", "productType", "productModel", "serialNumber"} then Some(160)
    else if key in {"customerPhone", "callbackNumber"} then Some(32)
    else if key == "exactFailure" then Some(2000)
    else if key == "serviceAddress" then Some(500)
    else if key == "faultDescription" then Some(10000)
    else None
  }

  predicate Uuid(text: string) {
    |text| == 36 && forall i :: 0 <= i < 36 ==>
      if i in {8, 13, 18, 23} then text[i] == '-' else Digit(text[i]) || 'a' <= text[i] <= 'f' || 'A' <= text[i] <= 'F'
  }

  predicate Copied(key: string, text: string) {
    match ProposalLimit(key)
    case Some(limit) => 1 <= |Trim(text)| <= limit && (key == "callbackNumber" ==> CallbackNumber(Trim(text)))
    case None =>
      || (key == "storeId" && Uuid(text))
      || (key == "urgency" && SupportedUrgency(text))
      || (key == "warrantyStatus" && text in {"yes", "no", "unknown"})
  }

  function Sanitized(p: Proposal): Fields {
    Put(Put(map key | key in p.texts && Copied(key, p.texts[key]) ::
              if ProposalLimit(key).Some? then Trim(p.texts[key]) else p.texts[key],
            "latitude", p.latitude), "longitude", p.longitude)
  }

  /** The fields that a policy can require. */
  predicate RequiredKey(key: string) {
    key in {"customerName", "customerPhone", "nationalId", "chainName", "storeName", "serviceLocation",
            "faultDescription", "exactFailure", "warrantyStatus", "callbackNumber", "urgency"}
  }

  /** missingIntakeFields, for one field; the national id is stored apart from the fields. */
  predicate AbsentInChat(fields: Fields, nationalId: bool, key: string) {
    if key == "serviceLocation" then
      !NonBlank(fields, "serviceAddress") && !NonBlank(fields, "storeId") && !("latitude" in fields && "longitude" in fields)
    else if key == "warrantyStatus" then "warrantyStatus" !in fields || fields["warrantyStatus"] !in {"yes", "no"}
    else if key == "nationalId" then !nationalId && !NonBlank(fields, key)
    else if key == "urgency" then key !in fields
    else !NonBlank(fields, key)
  }

  predicate CompleteInChat(fields: Fields, nationalId: bool, required: seq<string>, waived: set<string>) {
    forall i :: 0 <= i < |required| && RequiredKey(required[i]) && required[i] !in waived ==>
      !AbsentInChat(fields, nationalId, required[i])
  }

  lemma NoBlanksAround(text: string)
    requires text != [] && text[0] != ' ' && text[|text| - 1] != ' '
    ensures Trim(text) == text
  {
  }

  lemma CopiedIsNotBlank(key: string, text: string)
    requires Copied(key, text)
    ensures Trim(if ProposalLimit(key).Some? then Trim(text) else text) != []
  {
    if ProposalLimit(key).Some? {
      TrimmedIsNotBlank(text);
    } else {
      NoBlanksAround(text);
    }
  }

  /** A proposal sets fields and blanks none. */
  lemma ProposalKeepsNonBlank(fields: Fields, p: Proposal, key: string)
    requires NonBlank(fields, key)
    ensures NonBlank(fields + Sanitized(p), key)
  {
    if key in p.texts && Copied(key, p.texts[key]) {
      CopiedIsNotBlank(key, p.texts[key]);
    }
  }

  // ---- what was said stays said ---------------------------------------------------------------------

  predicate NonBlank(fields: Fields, key: string) {
    key in fields && Trim(fields[key]) != []
  }

  lemma {:induction false} TrimLeftLeaves(text: string)
    ensures TrimLeft(text) == [] || TrimLeft(text)[0] != ' '
  {
    if text != [] && text[0] == ' ' { TrimLeftLeaves(text[1..]); }
  }

  lemma {:induction false} TrimRightLeaves(text: string)
    ensures TrimRight(text) <= text
    ensures TrimRight(text) == [] || TrimRight(text)[|TrimRight(text)| - 1] != ' '
  {
    if text != [] && text[|text| - 1] == ' ' { TrimRightLeaves(text[..|text| - 1]); }
  }

  /** A trimmed text that is not empty is not blank. */
  lemma TrimmedIsNotBlank(text: string)
    requires Trim(text) != []
    ensures Trim(Trim(text)) != []
  {
    TrimLeftLeaves(text);
    TrimRightLeaves(TrimLeft(text));
    assert Trim(text)[0] == TrimLeft(text)[0];
    assert TrimLeft(Trim(text)) == Trim(text);
    assert TrimRight(Trim(text)) == Trim(text);
  }

  lemma {:induction false} MergeKeepsNonBlank(known: Fields, given: seq<(string, Option<string>)>, key: string)
    requires NonBlank(known, key) && Merged(known, given).Ok?
    ensures NonBlank(Merged(known, given).value.0, key)
    decreases |given|
  {
    if given != [] {
      var n := |given| - 1;
      MergeKeepsNonBlank(known, given[..n], key);
      var (k, value) := given[n];
      if k == key && Trim(value.value) != [] {
        TrimmedIsNotBlank(value.value);
      }
    }
  }

  /** The store chosen so far has a blank address that is not NULL. */
  predicate BlankAddress(fields: Fields, directory: Directory) {
    "storeId" in fields && fields["storeId"] in directory
    && directory[fields["storeId"]].address.Some? && Trim(directory[fields["storeId"]].address.value) == []
  }

  /** A field that was not blank is blank after a capture if and only if it is the service address and the
      chosen store's address in the directory is blank without being NULL. */
  lemma OnlyBlankStoreAddressErases(known: Fields, given: seq<(string, Option<string>)>, directory: Directory, key: string)
    requires Named(directory) && NonBlank(known, key) && Captured(known, given, directory).Ok?
    ensures !NonBlank(Captured(known, given, directory).value.0, key)
            <==> key == "serviceAddress" && BlankAddress(Merged(known, given).value.0, directory)
  {
    MergeKeepsNonBlank(known, given, key);
  }

  /** A caller's address lost to a store without one. */
  lemma AddressIsErased()
    ensures exists known: Fields, given: seq<(string, Option<string>)>, directory: Directory ::
              Named(directory) && NonBlank(known, "serviceAddress") && Captured(known, given, directory).Ok?
              && !NonBlank(Captured(known, given, directory).value.0, "serviceAddress")
  {
    var known: Fields := map["serviceAddress" := "1 High Street"];
    var given: seq<(string, Option<string>)> := [("storeId", Some("s"))];
    var directory: Directory := map["s" := Store("Shop", Some(""), None)];
    assert given[..|given| - 1] == [];
    assert Trim("s") == "s" && Trim("Shop") == "Shop" && Trim("1 High Street") == "1 High Street" && Trim("") == "";
    assert Merged(known, []) == Ok((known, []));
    assert FieldError(given[0].0, given[0].1) == None;
    assert "storeId" !in known;
    assert Merged(known, given).Ok? && Merged(known, given).value.0 == known["storeId" := "s"];
    OnlyBlankStoreAddressErases(known, given, directory, "serviceAddress");
  }
}
