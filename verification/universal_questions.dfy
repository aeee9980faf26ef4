/**
 * The fixed identity/demographic questions prepended to every panorama survey,
 * keyed and ordered as in the source catalogue, with negative `order` values.
 */
module UniversalQuestions {
  import opened Wrappers
  import opened Collections

  /** The catalogue keys, in declaration order. */
  datatype Key = FirstName | LastName | Email | Phone | HomeBase | CurrentLocation | AgeBracket | Occupation

  /** The key as spelled in the catalogue and in a panorama's `universal_questions_config`. */
  function KeyName(k: Key): string {
    match k
    case FirstName => "first_name"
    case LastName => "last_name"
    case Email => "email"
    case Phone => "phone"
    case HomeBase => "home_base"
    case CurrentLocation => "current_location"
    case AgeBracket => "age_bracket"
    case Occupation => "occupation"
  }

  /** The catalogue `order` of each key: -10 for first_name up to -3 for occupation. */
  function Order(k: Key): (o: int)
    ensures -10 <= o <= -3
  {
    match k
    case FirstName => -10
    case LastName => -9
    case Email => -8
    case Phone => -7
    case HomeBase => -6
    case CurrentLocation => -5
    case AgeBracket => -4
    case Occupation => -3
  }

  datatype UniversalQuestion = UniversalQuestion(
    key: Key,
    text: string,
    qtype: string,
    options: Option<seq<string>>,
    required: bool,
    order: int)

  /** `UNIVERSAL_QUESTIONS[key]`. */
  function Entry(k: Key): (q: UniversalQuestion)
    ensures q.key == k && q.order == Order(k)
  {
    match k
    case FirstName => UniversalQuestion(k, "First Name", "text", None, true, Order(k))
    case LastName => UniversalQuestion(k, "Last Name", "text", None, true, Order(k))
    case Email => UniversalQuestion(k, "Email Address", "email", None, true, Order(k))
    case Phone => UniversalQuestion(k, "Phone Number", "phone", None, false, Order(k))
    case HomeBase => UniversalQuestion(k, "Where is your home base / where did you grow up?", "text", None, false, Order(k))
    case CurrentLocation => UniversalQuestion(k, "Where do you currently live?", "text", None, false, Order(k))
    case AgeBracket => UniversalQuestion(k, "Age bracket", "Single-select",
      Some(["18-24", "25-34", "35-44", "45-54", "55-64", "65+"]), false, Order(k))
    case Occupation => UniversalQuestion(k, "Occupation / Field of Work", "text", None, false, Order(k))
  }

  const RequiredKeys: seq<Key> := [FirstName, LastName, Email]
  const OptionalKeys: seq<Key> := [Phone, HomeBase, CurrentLocation, AgeBracket, Occupation]
  const AllKeys: seq<Key> := RequiredKeys + OptionalKeys

  /** The catalogue, in declaration order. */
  function Catalogue(): (c: seq<UniversalQuestion>)
    ensures |c| == |AllKeys|
    ensures forall i :: 0 <= i < |c| ==> c[i] == Entry(AllKeys[i])
  {
    seq(|AllKeys|, i requires 0 <= i < |AllKeys| => Entry(AllKeys[i]))
  }

  /** The catalogue holds 8 questions whose orders are exactly -10 .. -3, in catalogue order. */
  lemma CatalogueOrders()
    ensures |Catalogue()| == 8
    ensures forall i :: 0 <= i < 8 ==> Catalogue()[i].order == i - 10
  {
    var c := Catalogue();
    assert AllKeys == [FirstName, LastName, Email, Phone, HomeBase, CurrentLocation, AgeBracket, Occupation];
  }

  /** `get_universal_question_texts()`: the texts in catalogue order. */
  function Texts(): (r: seq<string>)
    ensures |r| == 8
    ensures forall i :: 0 <= i < 8 ==> r[i] == Entry(AllKeys[i]).text
  {
    seq(|AllKeys|, i requires 0 <= i < |AllKeys| => Entry(AllKeys[i]).text)
  }

  /**
   * A catalogue entry tagged for one panorama: the copy with `panorama_id` and
   * `is_universal=True` added. The question itself is `Entry(key)`.
   */
  datatype UniversalRow = UniversalRow(key: Key, panoramaId: string, isUniversal: bool) {
    function Question(): UniversalQuestion { Entry(key) }
  }

  /** `config.get(key, False)` read as a truth value. */
  predicate Enabled(config: map<string, bool>, k: Key) {
    KeyName(k) in config && config[KeyName(k)]
  }

  predicate IncreasingKeys(keys: seq<Key>) {
    forall i, j :: 0 <= i < j < |keys| ==> Order(keys[i]) < Order(keys[j])
  }

  function EnabledIn(config: map<string, bool>): Key -> bool {
    (k: Key) => Enabled(config, k)
  }

  /** The row for one key, tagged for the panorama. */
  function RowFor(panoramaId: string): Key -> UniversalRow {
    (k: Key) => UniversalRow(k, panoramaId, true)
  }

  /** The rows for the enabled keys among `keys`, in order. */
  function OptionalRows(keys: seq<Key>, panoramaId: string, config: map<string, bool>): (r: seq<UniversalRow>)
    ensures |r| <= |keys|
    ensures forall i :: 0 <= i < |r| ==> r[i].panoramaId == panoramaId && r[i].isUniversal
  {
    Map(Filter(keys, EnabledIn(config)), RowFor(panoramaId))
  }

  /** Every row comes from an enabled key of the list. */
  lemma OptionalRowsFrom(keys: seq<Key>, panoramaId: string, config: map<string, bool>)
    ensures forall i :: 0 <= i < |OptionalRows(keys, panoramaId, config)| ==>
      OptionalRows(keys, panoramaId, config)[i].key in keys && Enabled(config, OptionalRows(keys, panoramaId, config)[i].key)
  {
    FilterMembers(keys, EnabledIn(config));
  }

  /** Rows taken from keys of increasing order have increasing order. */
  lemma OptionalRowsIncreasing(keys: seq<Key>, panoramaId: string, config: map<string, bool>)
    requires IncreasingKeys(keys)
    ensures forall i, j :: 0 <= i < j < |OptionalRows(keys, panoramaId, config)| ==>
      Order(OptionalRows(keys, panoramaId, config)[i].key) < Order(OptionalRows(keys, panoramaId, config)[j].key)
  {
    FilterIncreasing(keys, EnabledIn(config), Order);
  }

  /** A key of the list has a row exactly when it is enabled. */
  lemma OptionalRowsMember(keys: seq<Key>, panoramaId: string, config: map<string, bool>, k: Key)
    requires k in keys
    ensures Enabled(config, k) <==>
      exists i :: 0 <= i < |OptionalRows(keys, panoramaId, config)| && OptionalRows(keys, panoramaId, config)[i].key == k
  {
    var f := Filter(keys, EnabledIn(config));
    var r := OptionalRows(keys, panoramaId, config);
    FilterMembers(keys, EnabledIn(config));
    if Enabled(config, k) {
      var j :| 0 <= j < |keys| && keys[j] == k;
      assert EnabledIn(config)(keys[j]);
      var i :| 0 <= i < |f| && f[i] == k;
      assert r[i].key == k;
    }
  }

  /** The three required rows. */
  function RequiredRows(panoramaId: string): seq<UniversalRow> {
    [UniversalRow(FirstName, panoramaId, true), UniversalRow(LastName, panoramaId, true),
     UniversalRow(Email, panoramaId, true)]
  }

  /** The optional keys are exactly the keys ordered after Email. */
  lemma OptionalKeysAfterEmail(k: Key)
    ensures k in OptionalKeys <==> Order(Email) < Order(k)
  {
    assert OptionalKeys == [Phone, HomeBase, CurrentLocation, AgeBracket, Occupation];
    if Order(k) > -8 {
      assert OptionalKeys[Order(k) + 7] == k;
    }
  }

  /** What the optional part contributes: enabled optional keys, increasing, after Email. */
  lemma OptionalPart(panoramaId: string, config: map<string, bool>)
    ensures forall i :: 0 <= i < |OptionalRows(OptionalKeys, panoramaId, config)| ==>
      var q := OptionalRows(OptionalKeys, panoramaId, config)[i];
      q.key in OptionalKeys && Enabled(config, q.key) && Order(Email) < Order(q.key)
    ensures forall i, j :: 0 <= i < j < |OptionalRows(OptionalKeys, panoramaId, config)| ==>
      Order(OptionalRows(OptionalKeys, panoramaId, config)[i].key) < Order(OptionalRows(OptionalKeys, panoramaId, config)[j].key)
  {
    var r := OptionalRows(OptionalKeys, panoramaId, config);
    OptionalRowsFrom(OptionalKeys, panoramaId, config);
    forall i | 0 <= i < |r|
      ensures Order(Email) < Order(r[i].key)
    {
      OptionalKeysAfterEmail(r[i].key);
    }
    OptionalKeysIncreasing();
    OptionalRowsIncreasing(OptionalKeys, panoramaId, config);
  }

  lemma OptionalKeysIncreasing()
    ensures IncreasingKeys(OptionalKeys)
  {
    forall i, j | 0 <= i < j < |OptionalKeys|
      ensures Order(OptionalKeys[i]) < Order(OptionalKeys[j])
    {
      OptionalKeyOrder(i);
      OptionalKeyOrder(j);
    }
  }

  /** The optional keys are ordered -7, -6, ..., -3. */
  lemma OptionalKeyOrder(i: int)
    requires 0 <= i < |OptionalKeys|
    ensures Order(OptionalKeys[i]) == i - 7
  {
  }

  /**
   * `get_universal_questions(panorama_id, config)`: first_name, last_name, email,
   * then the optional entries whose config flag is true, in the fixed optional order.
   * Orders (`Order(key)`, which is `Entry(key).order`) are strictly increasing and negative,
   * so these rows sort before any order >= 0.
   */
  function GetUniversalQuestions(panoramaId: string, config: map<string, bool>): (r: seq<UniversalRow>)
    ensures 3 <= |r| <= 8
    ensures r[0].key == FirstName && r[1].key == LastName && r[2].key == Email
    ensures forall i :: 0 <= i < |r| ==> r[i].panoramaId == panoramaId && r[i].isUniversal
    ensures forall i :: 3 <= i < |r| ==> r[i].key in OptionalKeys && Enabled(config, r[i].key)
    ensures forall i, j :: 0 <= i < j < |r| ==> Order(r[i].key) < Order(r[j].key) < 0
  {
    var r := RequiredRows(panoramaId) + OptionalRows(OptionalKeys, panoramaId, config);
    RowsShape(panoramaId, config, r);
    r
  }

  /** The concatenated rows: the required part at 0..2, the optional part after it. */
  lemma RowsShape(panoramaId: string, config: map<string, bool>, r: seq<UniversalRow>)
    requires r == RequiredRows(panoramaId) + OptionalRows(OptionalKeys, panoramaId, config)
    ensures 3 <= |r| <= 8
    ensures r[0].key == FirstName && r[1].key == LastName && r[2].key == Email
    ensures forall i :: 0 <= i < |r| ==> r[i].panoramaId == panoramaId && r[i].isUniversal
    ensures forall i :: 3 <= i < |r| ==> r[i].key in OptionalKeys && Enabled(config, r[i].key)
    ensures forall i, j :: 0 <= i < j < |r| ==> Order(r[i].key) < Order(r[j].key) < 0
  {
    var opt := OptionalRows(OptionalKeys, panoramaId, config);
    RowsAt(panoramaId, opt, r);
    OptionalPart(panoramaId, config);
    RowsOrdered(panoramaId, opt, r);
  }

  /** Each position of the concatenation holds a required row or the optional row it shifts. */
  lemma RowsAt(panoramaId: string, opt: seq<UniversalRow>, r: seq<UniversalRow>)
    requires r == RequiredRows(panoramaId) + opt
    ensures |r| == 3 + |opt|
    ensures r[0].key == FirstName && r[1].key == LastName && r[2].key == Email
    ensures forall i :: 0 <= i < 3 ==> r[i].panoramaId == panoramaId && r[i].isUniversal
    ensures forall i :: 3 <= i < |r| ==> r[i] == opt[i - 3]
  {
  }

  /** Required rows (orders -10, -9, -8) precede optional rows that come after Email in order. */
  lemma RowsOrdered(panoramaId: string, opt: seq<UniversalRow>, r: seq<UniversalRow>)
    requires |r| == 3 + |opt|
    requires r[0].key == FirstName && r[1].key == LastName && r[2].key == Email
    requires forall i :: 3 <= i < |r| ==> r[i] == opt[i - 3]
    requires forall i :: 0 <= i < |opt| ==> Order(Email) < Order(opt[i].key)
    requires forall i, j :: 0 <= i < j < |opt| ==> Order(opt[i].key) < Order(opt[j].key)
    ensures forall i, j :: 0 <= i < j < |r| ==> Order(r[i].key) < Order(r[j].key) < 0
  {
    forall i, j | 0 <= i < j < |r|
      ensures Order(r[i].key) < Order(r[j].key) < 0
    {
      if j >= 3 {
        assert r[j] == opt[j - 3];
        if i >= 3 {
          assert r[i] == opt[i - 3];
        }
      }
    }
  }

  /** An optional entry is returned exactly when its config flag is true. */
  lemma OptionalIncludedIffEnabled(panoramaId: string, config: map<string, bool>, k: Key)
    requires k in OptionalKeys
    ensures var r := GetUniversalQuestions(panoramaId, config);
      Enabled(config, k) <==> exists i :: 3 <= i < |r| && r[i].key == k
  {
    var r := GetUniversalQuestions(panoramaId, config);
    var opt := OptionalRows(OptionalKeys, panoramaId, config);
    OptionalRowsMember(OptionalKeys, panoramaId, config, k);
    assert r[3..] == opt;
    if Enabled(config, k) {
      var i :| 0 <= i < |opt| && opt[i].key == k;
      assert r[3 + i] == opt[i];
    }
  }
}
