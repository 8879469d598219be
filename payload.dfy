/**
 * The purchase payload both pipelines POST: `user_data` (hashed and plain PII), `custom_data`
 * (the order and its line items) and `metadata`. The class-based builders live in
 * includes/class-core.php:105-309, the procedural ones in includes/helpers.php:131-339; they
 * differ in the few places a `Variant` parameter selects.
 */
module Payload {
  import opened Wrappers
  import opened Php
  import opened Helpers
  import opened Orders

  /** Which copy of the pipeline builds a value. */
  datatype Variant = ClassBased | Procedural

  // ---------------------------------------------------------------------------------------------
  // user_data
  // ---------------------------------------------------------------------------------------------

  /**
   * One PII pair of `user_data` after `array_filter`: the one-element hash list under the short
   * key (`em`, `ph`, `fn`, ...) and the plain value under the long key (`email_address`, ...).
   * None stands for an absent key.
   */
  datatype Field = Field(hashed: Option<string>, plain: Option<string>)

  const Absent := Field(None, None)

  /** The short key is present exactly when the long key is. */
  predicate Paired(f: Field) {
    f.hashed.Some? <==> f.plain.Some?
  }

  /** A plain value that survived `array_filter` is not PHP-empty. */
  predicate PlainKept(f: Field) {
    f.plain.Some? ==> !IsEmptyString(f.plain.value)
  }

  datatype UserData = UserData(
    email: Field,
    phone: Field,
    firstName: Field,
    lastName: Field,
    city: Field,
    state: Field,
    zip: Field,
    country: Field,
    externalId: Option<string>,
    userId: Option<int>,
    username: Option<string>,
    userRegistered: Option<string>,
    userType: string,
    billingCompany: Option<string>)
  {
    predicate AllPaired() {
      Paired(email) && Paired(phone) && Paired(firstName) && Paired(lastName)
      && Paired(city) && Paired(state) && Paired(zip) && Paired(country)
    }

    /** `array_filter` left no PHP-empty string value behind. */
    predicate NoEmptyValues() {
      && PlainKept(email) && PlainKept(phone) && PlainKept(firstName) && PlainKept(lastName)
      && PlainKept(city) && PlainKept(state) && PlainKept(zip) && PlainKept(country)
      && (username.Some? ==> !IsEmptyString(username.value))
      && (userRegistered.Some? ==> !IsEmptyString(userRegistered.value))
      && (billingCompany.Some? ==> !IsEmptyString(billingCompany.value))
      && (userId.Some? ==> userId.value != 0)
    }
  }

  /** `array_filter` applied to one string entry. */
  function Kept(s: string): (r: Option<string>)
    ensures r.Some? <==> !IsEmptyString(s)
    ensures r.Some? ==> r.value == s
  {
    if IsEmptyString(s) then None else Some(s)
  }

  /** `external_id`, `user_id`, `username`, `user_registered`, `user_type` and `billing_company`, which both copies build alike. */
  function WithAccount(sha: string -> Digest, o: Order, pii: UserData): UserData {
    var registered := o.userId != 0;
    pii.(
      externalId := if registered then Some(HashPii(sha, IntToString(o.userId))) else None,
      userId := if registered then Some(o.userId) else None,
      username := if registered && o.user.Some? then Kept(o.user.value.login) else None,
      userRegistered := if registered && o.user.Some? then Kept(o.user.value.registered) else None,
      userType := if registered then "registered" else "guest",
      billingCompany := Kept(o.billing.company))
  }

  /** The eight PII pairs, before the account keys are added. */
  function PiiOf(email: Field, phone: Field, firstName: Field, lastName: Field, city: Field, state: Field, zip: Field, country: Field): UserData {
    UserData(email, phone, firstName, lastName, city, state, zip, country, None, None, None, None, "guest", None)
  }

  /** The email pair of the class-based copy: `hash_pii` of the lower-cased trimmed address. */
  function CoreEmail(sha: string -> Digest, raw: string): Field {
    var clean := Lower(Trim(raw));
    if IsEmptyString(raw) then Absent else Field(Some(HashPii(sha, clean)), Kept(clean))
  }

  /** The phone or postcode pair of the class-based copy: digits only, kept when `fits` holds of their number. */
  function CoreDigits(sha: string -> Digest, raw: string, fits: bool): Field {
    var clean := DigitsOnly(raw);
    if !IsEmptyString(raw) && fits then Field(Some(HashPii(sha, clean)), Kept(clean)) else Absent
  }

  /** A name, city, state or country pair of the class-based copy: `hash_pii` of the raw value, plain value trimmed. */
  function CoreText(sha: string -> Digest, raw: string): Field {
    if IsEmptyString(raw) then Absent else Field(Some(HashPii(sha, raw)), Kept(Trim(raw)))
  }

  /** `prepare_user_data` of includes/class-core.php, as written. */
  function CoreUserData(sha: string -> Digest, o: Order): UserData {
    var b := o.billing;
    WithAccount(sha, o, PiiOf(
      CoreEmail(sha, b.email),
      CoreDigits(sha, b.phone, |FormatPhone(b.phone)| >= 10),
      CoreText(sha, b.firstName),
      CoreText(sha, b.lastName),
      CoreText(sha, b.city),
      CoreText(sha, b.state),
      CoreDigits(sha, b.postcode, |FormatZip(b.postcode)| == 8),
      CoreText(sha, b.country)))
  }

  /** The email pair of the procedural copy: `hash('sha256', ...)` of the lower-cased trimmed address. */
  function ProceduralEmail(sha: string -> Digest, raw: string): Field {
    var clean := Lower(Trim(raw));
    if IsEmptyString(raw) then Absent else Field(Some(sha(clean)), Kept(clean))
  }

  function ProceduralDigits(sha: string -> Digest, raw: string, fits: bool): Field {
    var clean := DigitsOnly(raw);
    if !IsEmptyString(raw) && fits then Field(Some(sha(clean)), Kept(clean)) else Absent
  }

  /** A name, city, state or country pair of the procedural copy: the digest of `strtolower(trim($v))`, plain value trimmed. */
  function ProceduralText(sha: string -> Digest, raw: string): Field {
    if IsEmptyString(raw) then Absent else Field(Some(sha(Lower(Trim(raw)))), Kept(Trim(raw)))
  }

  /** `wc_sgtm_preparar_user_data` of includes/helpers.php, as written. */
  function ProceduralUserData(sha: string -> Digest, o: Order): UserData {
    var b := o.billing;
    var u := WithAccount(sha, o, PiiOf(
      ProceduralEmail(sha, b.email),
      ProceduralDigits(sha, b.phone, |FormatPhone(b.phone)| >= 10),
      ProceduralText(sha, b.firstName),
      ProceduralText(sha, b.lastName),
      ProceduralText(sha, b.city),
      ProceduralText(sha, b.state),
      ProceduralDigits(sha, b.postcode, |FormatZip(b.postcode)| == 8),
      ProceduralText(sha, b.country)));
    u.(externalId := if o.userId != 0 then Some(sha(IntToString(o.userId))) else None)
  }

  /** Both keys of a pair, decided on the value that is emitted: present exactly when it is not PHP-empty. */
  function Pair(sha: string -> Digest, plain: string): Field {
    if IsEmptyString(plain) then Absent else Field(Some(HashPii(sha, plain)), Some(plain))
  }

  function PairedDigits(sha: string -> Digest, raw: string, fits: bool): Field {
    if fits then Pair(sha, DigitsOnly(raw)) else Absent
  }

  /**
   * The user data both copies evidently intend: each hash is emitted exactly when its plain
   * counterpart survives `array_filter`. On billing data with no blank value both copies build
   * exactly this (`OrderPayloadPairedWithoutBlanks`).
   */
  function PairedUserData(sha: string -> Digest, o: Order): UserData {
    var b := o.billing;
    WithAccount(sha, o, PiiOf(
      Pair(sha, Lower(Trim(b.email))),
      PairedDigits(sha, b.phone, |FormatPhone(b.phone)| >= 10),
      Pair(sha, Trim(b.firstName)),
      Pair(sha, Trim(b.lastName)),
      Pair(sha, Trim(b.city)),
      Pair(sha, Trim(b.state)),
      PairedDigits(sha, b.postcode, |FormatZip(b.postcode)| == 8),
      Pair(sha, Trim(b.country))))
  }

  /** A pair emitted for a normalised value: the plain value and the digest of its lower-cased form. */
  predicate PairOf(sha: string -> Digest, f: Field, plain: string) {
    if IsEmptyString(plain) then f == Absent else f == Field(Some(sha(Lower(plain))), Some(plain))
  }

  lemma PairOfTrimmed(sha: string -> Digest, plain: string)
    requires Trimmed(plain)
    ensures PairOf(sha, Pair(sha, plain), plain)
    ensures Paired(Pair(sha, plain)) && PlainKept(Pair(sha, plain))
  {
    TrimOfTrimmed(plain);
  }

  /**
   * What the corrected user data promises for its text pairs: each hash is the digest of the
   * lower-cased plain value it is paired with; the email is the lower-cased trimmed address and
   * the names, city, state and country are trimmed.
   */
  lemma PairedUserDataText(sha: string -> Digest, o: Order)
    ensures var u := PairedUserData(sha, o);
      && PairOf(sha, u.email, Lower(Trim(o.billing.email)))
      && PairOf(sha, u.firstName, Trim(o.billing.firstName))
      && PairOf(sha, u.lastName, Trim(o.billing.lastName))
      && PairOf(sha, u.city, Trim(o.billing.city))
      && PairOf(sha, u.state, Trim(o.billing.state))
      && PairOf(sha, u.country, Trim(o.billing.country))
  {
    var b := o.billing;
    LowerKeepsTrimmed(Trim(b.email));
    PairOfTrimmed(sha, Lower(Trim(b.email)));
    PairOfTrimmed(sha, Trim(b.firstName));
    PairOfTrimmed(sha, Trim(b.lastName));
    PairOfTrimmed(sha, Trim(b.city));
    PairOfTrimmed(sha, Trim(b.state));
    PairOfTrimmed(sha, Trim(b.country));
  }

  lemma PairedDigitsSpec(sha: string -> Digest, raw: string, fits: bool)
    requires fits ==> |DigitsOnly(raw)| >= 2
    ensures PairedDigits(sha, raw, fits).plain.Some? <==> fits
    ensures fits ==> PairOf(sha, PairedDigits(sha, raw, fits), DigitsOnly(raw))
  {
    if fits {
      DigitsNormalised(DigitsOnly(raw));
      PairOfTrimmed(sha, DigitsOnly(raw));
    }
  }

  /**
   * The corrected phone pair is present iff the phone has at least 10 digits and the postcode
   * pair iff the postcode has exactly 8; both carry the digits only, hashed as they are.
   */
  lemma PairedUserDataDigits(sha: string -> Digest, o: Order)
    ensures var u := PairedUserData(sha, o);
      && (u.phone.plain.Some? <==> |FormatPhone(o.billing.phone)| >= 10)
      && (u.phone.plain.Some? ==> PairOf(sha, u.phone, FormatPhone(o.billing.phone)))
      && (u.zip.plain.Some? <==> |FormatZip(o.billing.postcode)| == 8)
      && (u.zip.plain.Some? ==> PairOf(sha, u.zip, FormatZip(o.billing.postcode)))
  {
    PairedDigitsSpec(sha, o.billing.phone, |FormatPhone(o.billing.phone)| >= 10);
    PairedDigitsSpec(sha, o.billing.postcode, |FormatZip(o.billing.postcode)| == 8);
  }

  /**
   * The corrected user data keeps every pair complete or absent, leaves no PHP-empty value, and
   * sets `user_type` to 'registered' iff the order has a user id; `billing_company` is dropped iff
   * it is PHP-empty.
   */
  lemma PairedUserDataShape(sha: string -> Digest, o: Order)
    ensures var u := PairedUserData(sha, o);
      && u.AllPaired() && u.NoEmptyValues()
      && (u.userType == "registered" <==> o.userId != 0)
      && (u.userType == "guest" <==> o.userId == 0)
      && (u.billingCompany.None? <==> IsEmptyString(o.billing.company))
  {
    var u := PairedUserData(sha, o);
    assert u.AllPaired();
  }

  /** A billing value that is not PHP-empty but trims to a PHP-empty one (" ", " 0 "). */
  predicate Blank(raw: string) {
    !IsEmptyString(raw) && IsEmptyString(Trim(raw))
  }

  predicate NoBlankBilling(b: Billing) {
    !Blank(b.email) && !Blank(b.firstName) && !Blank(b.lastName) && !Blank(b.city)
    && !Blank(b.state) && !Blank(b.country)
  }

  lemma TextAgrees(sha: string -> Digest, raw: string)
    requires !Blank(raw)
    ensures CoreText(sha, raw) == Pair(sha, Trim(raw))
    ensures ProceduralText(sha, raw) == Pair(sha, Trim(raw))
  {
    if IsEmptyString(raw) {
      TrimOfEmpty(raw);
    } else {
      HashPiiOfTrim(sha, raw);
      TrimIdempotent(raw);
    }
  }

  lemma EmailAgrees(sha: string -> Digest, raw: string)
    requires !Blank(raw)
    ensures CoreEmail(sha, raw) == Pair(sha, Lower(Trim(raw)))
    ensures ProceduralEmail(sha, raw) == Pair(sha, Lower(Trim(raw)))
  {
    LowerKeepsEmptiness(Trim(raw));
    if IsEmptyString(raw) {
      TrimOfEmpty(raw);
    } else {
      NormaliseIdempotent(raw);
    }
  }

  /** The digit-only pairs never break: a phone of 10 or more digits, or a postcode of 8, is neither "" nor "0". */
  lemma DigitsAgree(sha: string -> Digest, raw: string, fits: bool)
    requires fits ==> |DigitsOnly(raw)| >= 2
    ensures CoreDigits(sha, raw, fits) == PairedDigits(sha, raw, fits)
    ensures ProceduralDigits(sha, raw, fits) == PairedDigits(sha, raw, fits)
  {
    var digits := DigitsOnly(raw);
    if fits {
      assert |raw| >= |digits|;
      assert !IsEmptyString(digits);
      DigitsNormalised(digits);
      TrimOfTrimmed(digits);
    }
  }

  /** The procedural `external_id` digest equals the `hash_pii` one: `strval` of an id has nothing to trim or lower-case. */
  lemma ExternalIdAgrees(sha: string -> Digest, id: int)
    requires id != 0
    ensures sha(IntToString(id)) == HashPii(sha, IntToString(id))
  {
    IntToStringShape(id);
    TrimOfTrimmed(IntToString(id));
  }

  /** On billing data with no blank value the class-based copy, as written, already builds the corrected user data. */
  lemma CoreAgreesWithoutBlanks(sha: string -> Digest, o: Order)
    requires NoBlankBilling(o.billing)
    ensures CoreUserData(sha, o) == PairedUserData(sha, o)
  {
    var b := o.billing;
    TextAgrees(sha, b.firstName);
    TextAgrees(sha, b.lastName);
    TextAgrees(sha, b.city);
    TextAgrees(sha, b.state);
    TextAgrees(sha, b.country);
    EmailAgrees(sha, b.email);
    DigitsAgree(sha, b.phone, |FormatPhone(b.phone)| >= 10);
    DigitsAgree(sha, b.postcode, |FormatZip(b.postcode)| == 8);
  }

  /** On billing data with no blank value the procedural copy, as written, already builds the corrected user data. */
  lemma ProceduralAgreesWithoutBlanks(sha: string -> Digest, o: Order)
    requires NoBlankBilling(o.billing)
    ensures ProceduralUserData(sha, o) == PairedUserData(sha, o)
  {
    var b := o.billing;
    TextAgrees(sha, b.firstName);
    TextAgrees(sha, b.lastName);
    TextAgrees(sha, b.city);
    TextAgrees(sha, b.state);
    TextAgrees(sha, b.country);
    EmailAgrees(sha, b.email);
    DigitsAgree(sha, b.phone, |FormatPhone(b.phone)| >= 10);
    DigitsAgree(sha, b.postcode, |FormatZip(b.postcode)| == 8);
    if o.userId != 0 {
      ExternalIdAgrees(sha, o.userId);
    }
  }

  /**
   * The class-based copy, as written, breaks the pairing: a whitespace-only email emits
   * `em => ['']` without `email_address`, and a whitespace-only first name emits the digest of
   * '' without `first_name`.
   */
  lemma CoreUserDataUnpaired(sha: string -> Digest, o: Order)
    requires o.billing.email == " " && o.billing.firstName == " "
    ensures CoreUserData(sha, o).email == Field(Some(""), None)
    ensures CoreUserData(sha, o).firstName == Field(Some(sha("")), None)
    ensures !CoreUserData(sha, o).AllPaired() && PairedUserData(sha, o).email == Absent
  {
    assert Trim(" ") == "";
    assert Lower("") == "";
  }

  /** The procedural copy, as written, emits the digest of '' for a whitespace-only email or city with no plain value. */
  lemma ProceduralUserDataUnpaired(sha: string -> Digest, o: Order)
    requires o.billing.email == " " && o.billing.city == "\t"
    ensures ProceduralUserData(sha, o).email == Field(Some(sha("")), None)
    ensures ProceduralUserData(sha, o).city == Field(Some(sha("")), None)
    ensures !ProceduralUserData(sha, o).AllPaired() && PairedUserData(sha, o).city == Absent
  {
    assert Trim(" ") == "";
    assert Trim("\t") == "";
    assert Lower("") == "";
  }

  // ---------------------------------------------------------------------------------------------
  // Brand
  // ---------------------------------------------------------------------------------------------

  /** The brand taxonomies the class-based copy tries, in order. */
  const CoreBrandTaxonomies: seq<string> := ["product_brand", "pa_brand", "yith_product_brand"]

  /** The procedural copy looks at `product_brand` alone. */
  const ProceduralBrandTaxonomies: seq<string> := ["product_brand"]

  function BrandTaxonomies(v: Variant): seq<string> {
    match v
    case ClassBased => CoreBrandTaxonomies
    case Procedural => ProceduralBrandTaxonomies
  }

  /** The first term name of the first taxonomy in `taxes` that has any terms; '' when none has. */
  function FirstTerm(p: Product, taxes: seq<string>): string {
    if taxes == [] then ""
    else if p.Terms(taxes[0]) != [] then p.Terms(taxes[0])[0]
    else FirstTerm(p, taxes[1..])
  }

  /** The brand: the `pa_marca` attribute, else `marca`, else (for a product with an id) the first taxonomy term, with `?: ''` at the end. */
  function BrandSpec(p: Product, taxes: seq<string>): string {
    var attr := if IsEmptyString(p.Attribute("pa_marca")) then p.Attribute("marca") else p.Attribute("pa_marca");
    var brand := if IsEmptyString(attr) && p.id != 0 then FirstTerm(p, taxes) else attr;
    if IsEmptyString(brand) then "" else brand
  }

  /** `FirstTerm` picks the first taxonomy that has terms: every earlier one has none. */
  lemma {:induction false} FirstTermIsFirstMatch(p: Product, taxes: seq<string>, k: nat)
    requires k < |taxes| && p.Terms(taxes[k]) != []
    requires forall j :: 0 <= j < k ==> p.Terms(taxes[j]) == []
    ensures FirstTerm(p, taxes) == p.Terms(taxes[k])[0]
  {
    if k > 0 {
      assert p.Terms(taxes[0]) == [];
      FirstTermIsFirstMatch(p, taxes[1..], k - 1);
    }
  }

  lemma {:induction false} FirstTermNone(p: Product, taxes: seq<string>)
    requires forall j :: 0 <= j < |taxes| ==> p.Terms(taxes[j]) == []
    ensures FirstTerm(p, taxes) == ""
  {
    if taxes != [] {
      FirstTermNone(p, taxes[1..]);
    }
  }

  /**
   * The fallback chain, first match wins: a non-empty `pa_marca`; else a non-empty `marca`; else
   * the first term of the first taxonomy (in the given order) that has terms; else ''. The
   * result is never "0".
   */
  lemma BrandFirstMatch(p: Product, taxes: seq<string>)
    ensures var r := BrandSpec(p, taxes);
      && (r == "" || !IsEmptyString(r))
      && (!IsEmptyString(p.Attribute("pa_marca")) ==> r == p.Attribute("pa_marca"))
      && (IsEmptyString(p.Attribute("pa_marca")) && !IsEmptyString(p.Attribute("marca")) ==> r == p.Attribute("marca"))
      && (IsEmptyString(p.Attribute("pa_marca")) && IsEmptyString(p.Attribute("marca")) ==>
            && (p.id == 0 ==> r == "")
            && ((forall j :: 0 <= j < |taxes| ==> p.Terms(taxes[j]) == []) ==> r == "")
            && (forall k :: 0 <= k < |taxes| && p.Terms(taxes[k]) != []
                  && (forall j :: 0 <= j < k ==> p.Terms(taxes[j]) == []) && p.id != 0
                  ==> r == (if IsEmptyString(p.Terms(taxes[k])[0]) then "" else p.Terms(taxes[k])[0])))
  {
    var r := BrandSpec(p, taxes);
    if IsEmptyString(p.Attribute("pa_marca")) && IsEmptyString(p.Attribute("marca")) {
      var t := FirstTerm(p, taxes);
      assert r == if p.id != 0 && !IsEmptyString(t) then t else "";
      if forall j :: 0 <= j < |taxes| ==> p.Terms(taxes[j]) == [] {
        FirstTermNone(p, taxes);
      }
      forall k | 0 <= k < |taxes| && p.Terms(taxes[k]) != [] && (forall j :: 0 <= j < k ==> p.Terms(taxes[j]) == []) && p.id != 0
        ensures r == (if IsEmptyString(p.Terms(taxes[k])[0]) then "" else p.Terms(taxes[k])[0])
      {
        FirstTermIsFirstMatch(p, taxes, k);
      }
    }
  }

  /** `get_product_brand` / `wc_sgtm_get_product_brand`: the attribute checks, then the taxonomy loop with its `break`. */
  method ProductBrand(p: Product, taxes: seq<string>) returns (brand: string)
    ensures brand == BrandSpec(p, taxes)
  {
    brand := p.Attribute("pa_marca");
    if IsEmptyString(brand) {
      brand := p.Attribute("marca");
    }
    if IsEmptyString(brand) && p.id != 0 {
      var i := 0;
      while i < |taxes|
        invariant 0 <= i <= |taxes|
        invariant FirstTerm(p, taxes[i..]) == FirstTerm(p, taxes)
        invariant IsEmptyString(brand)
      {
        var terms := p.Terms(taxes[i]);
        if terms != [] {
          brand := terms[0];
          break;
        }
        assert taxes[i..][1..] == taxes[i + 1..];
        i := i + 1;
      }
    }
    if IsEmptyString(brand) {
      brand := "";
    }
  }

  // ---------------------------------------------------------------------------------------------
  // custom_data
  // ---------------------------------------------------------------------------------------------

  /** One entry of `contents`. */
  datatype Content = Content(
    id: string,
    name: string,
    category: string,
    quantity: int,
    itemPrice: real,
    brand: string,
    sku: string)

  /** The four lists the item loop appends to. */
  datatype ItemLists = ItemLists(
    contentIds: seq<string>,
    contentNames: seq<string>,
    categories: seq<string>,
    contents: seq<Content>)

  /** `!empty($categories) ? $categories[0] : ''` over the product's `product_cat` term names. */
  function FirstCategory(p: Product): string {
    var cats := p.Terms("product_cat");
    if cats == [] then "" else cats[0]
  }

  /** Whether the item's category is appended to `content_category`. */
  predicate AppendsCategory(v: Variant, p: Product) {
    match v
    case ClassBased => !IsEmptyString(FirstCategory(p))
    case Procedural => p.Terms("product_cat") != []
  }

  function Sku(v: Variant, p: Product): string {
    if !IsEmptyString(p.sku) then p.sku
    else match v
      case ClassBased => IntToString(p.id)
      case Procedural => ""
  }

  /** The `contents` entry for a line item whose product resolved. */
  function ContentOf(v: Variant, item: LineItem, p: Product): Content {
    Content(
      IntToString(p.id),
      p.name,
      FirstCategory(p),
      item.quantity,
      match v { case ClassBased => item.unitSubtotal case Procedural => p.price },
      BrandSpec(p, BrandTaxonomies(v)),
      Sku(v, p))
  }

  /** The lists after the item loop has seen one more line item. */
  function Step(v: Variant, acc: ItemLists, item: LineItem, brand: string): ItemLists
    requires item.product.Some?
  {
    var p := item.product.value;
    ItemLists(
      acc.contentIds + [IntToString(p.id)],
      acc.contentNames + [p.name],
      acc.categories + (if AppendsCategory(v, p) then [FirstCategory(p)] else []),
      acc.contents + [ContentOf(v, item, p).(brand := brand)])
  }

  /** The lists after the item loop, defined over the items seen so far; items without a product are skipped. */
  function ItemListsOf(v: Variant, items: seq<LineItem>): ItemLists {
    if items == [] then ItemLists([], [], [], [])
    else
      var acc := ItemListsOf(v, items[..|items| - 1]);
      var item := items[|items| - 1];
      if item.product.None? then acc
      else Step(v, acc, item, BrandSpec(item.product.value, BrandTaxonomies(v)))
  }

  /** The foreach of `prepare_custom_data` / `wc_sgtm_preparar_custom_data`, appending to the four lists. */
  method CollectItems(v: Variant, items: seq<LineItem>) returns (lists: ItemLists)
    ensures lists == ItemListsOf(v, items)
  {
    lists := ItemLists([], [], [], []);
    var i := 0;
    while i < |items|
      invariant 0 <= i <= |items|
      invariant lists == ItemListsOf(v, items[..i])
    {
      var item := items[i];
      assert items[..i + 1][..i] == items[..i];
      if item.product.Some? {
        var brand := ProductBrand(item.product.value, BrandTaxonomies(v));
        lists := Step(v, lists, item, brand);
      }
      i := i + 1;
    }
    assert items[..|items|] == items;
  }

  /** The products of the items that resolved, in item order. */
  function Resolved(items: seq<LineItem>): seq<Product> {
    if items == [] then []
    else Resolved(items[..|items| - 1]) + (match items[|items| - 1].product case Some(p) => [p] case None => [])
  }

  /**
   * `content_ids`, `content_names` and `contents` gain exactly one entry per item whose product
   * resolved, in item order, and entry k of each describes the k-th such product.
   */
  lemma {:induction false} ItemListsAligned(v: Variant, items: seq<LineItem>)
    ensures var l := ItemListsOf(v, items);
      var ps := Resolved(items);
      && |l.contentIds| == |l.contentNames| == |l.contents| == |ps| <= |items|
      && forall k :: 0 <= k < |ps| ==>
           && l.contentIds[k] == IntToString(ps[k].id) == l.contents[k].id
           && l.contentNames[k] == ps[k].name == l.contents[k].name
           && l.contents[k].brand == BrandSpec(ps[k], BrandTaxonomies(v))
           && l.contents[k].category == FirstCategory(ps[k])
           && l.contents[k].sku == Sku(v, ps[k])
  {
    if items != [] {
      ItemListsAligned(v, items[..|items| - 1]);
    }
  }

  /** The collected categories are exactly the appended first categories of the resolved products. */
  lemma {:induction false} ItemCategories(v: Variant, items: seq<LineItem>, c: string)
    ensures c in ItemListsOf(v, items).categories <==>
      exists k :: 0 <= k < |Resolved(items)| && AppendsCategory(v, Resolved(items)[k]) && FirstCategory(Resolved(items)[k]) == c
  {
    if items != [] {
      var front := items[..|items| - 1];
      ItemCategories(v, front, c);
      var ps := Resolved(items);
      var pf := Resolved(front);
      var item := items[|items| - 1];
      if item.product.Some? {
        var p := item.product.value;
        assert ps == pf + [p];
        var extra := if AppendsCategory(v, p) then [FirstCategory(p)] else [];
        assert ItemListsOf(v, items).categories == ItemListsOf(v, front).categories + extra;
        if c in ItemListsOf(v, front).categories {
          var k :| 0 <= k < |pf| && AppendsCategory(v, pf[k]) && FirstCategory(pf[k]) == c;
          assert ps[k] == pf[k];
        }
        if c in ItemListsOf(v, items).categories && c !in ItemListsOf(v, front).categories {
          assert AppendsCategory(v, ps[|pf|]) && FirstCategory(ps[|pf|]) == c;
        }
        if exists k :: 0 <= k < |ps| && AppendsCategory(v, ps[k]) && FirstCategory(ps[k]) == c {
          var k :| 0 <= k < |ps| && AppendsCategory(v, ps[k]) && FirstCategory(ps[k]) == c;
          if k < |pf| {
            assert pf[k] == ps[k];
            assert c in ItemListsOf(v, front).categories;
          } else {
            assert extra == [c];
          }
        }
      } else {
        assert ps == pf;
      }
    }
  }

  /** With the id fallback, a product with a non-zero id always has a non-empty class-based `sku`; a non-empty product SKU is kept as it is. */
  lemma SkuFallback(v: Variant, p: Product)
    ensures !IsEmptyString(p.sku) ==> Sku(v, p) == p.sku
    ensures v == ClassBased && p.id != 0 ==> !IsEmptyString(Sku(v, p))
    ensures v == ClassBased ==> ToInt(Str(Sku(v, p))) == p.id || Sku(v, p) == p.sku
  {
    IntToStringShape(p.id);
    IntToStringRoundTrip(p.id);
  }

  datatype CustomData = CustomData(
    currency: string,
    value: real,
    orderId: string,
    numItems: int,
    contentType: string,
    contentIds: seq<string>,
    contentNames: seq<string>,
    contentCategory: seq<string>,
    contents: seq<Content>,
    subtotal: real,
    tax: real,
    shipping: real,
    discount: real,
    orderKey: string,
    coupon: Option<string>)

  /** The class-based copy adds `coupon`, the codes joined by ", ", when the order has coupon codes. */
  function Coupon(v: Variant, codes: seq<string>): (r: Option<string>)
    ensures r.Some? <==> v == ClassBased && codes != []
    ensures r.Some? ==> r.value == Join(codes, ", ")
  {
    if v == ClassBased && codes != [] then Some(Join(codes, ", ")) else None
  }

  /** The class-based copy ends with `array_unique(array_filter(...))` on the categories. */
  function FinalCategories(v: Variant, collected: seq<string>): seq<string> {
    match v
    case ClassBased => Unique(FilterNonEmpty(collected))
    case Procedural => collected
  }

  function CustomDataFrom(v: Variant, o: Order, lists: ItemLists): CustomData {
    CustomData(
      o.currency, o.total, IntToString(o.id), o.itemCount, "product",
      lists.contentIds, lists.contentNames, FinalCategories(v, lists.categories), lists.contents,
      o.subtotal, o.totalTax, o.shippingTotal, o.discountTotal, o.orderKey,
      Coupon(v, o.couponCodes))
  }

  /** `prepare_custom_data` / `wc_sgtm_preparar_custom_data`. */
  function CustomDataSpec(v: Variant, o: Order): CustomData {
    CustomDataFrom(v, o, ItemListsOf(v, o.items))
  }

  method PrepareCustomData(v: Variant, o: Order) returns (cd: CustomData)
    ensures cd == CustomDataSpec(v, o)
  {
    var lists := CollectItems(v, o.items);
    cd := CustomDataFrom(v, o, lists);
  }

  /**
   * The class-based `content_category` has no PHP-empty and no repeated entry, and holds exactly
   * the non-empty first categories of the resolved products.
   */
  lemma CoreCategories(o: Order, c: string)
    ensures var cats := CustomDataSpec(ClassBased, o).contentCategory;
      && NoDuplicates(cats)
      && (forall i :: 0 <= i < |cats| ==> !IsEmptyString(cats[i]))
      && (c in cats <==> !IsEmptyString(c) && exists p :: p in Resolved(o.items) && FirstCategory(p) == c)
  {
    ItemCategories(ClassBased, o.items, c);
    var ps := Resolved(o.items);
    if !IsEmptyString(c) && exists p :: p in ps && FirstCategory(p) == c {
      var p :| p in ps && FirstCategory(p) == c;
      var k :| 0 <= k < |ps| && ps[k] == p;
      assert AppendsCategory(ClassBased, ps[k]);
    }
    var cats := CustomDataSpec(ClassBased, o).contentCategory;
    forall i | 0 <= i < |cats|
      ensures !IsEmptyString(cats[i])
    {
      assert cats[i] in cats;
    }
  }

  /**
   * PHP keeps each class-based category under the index it was collected at, so the keys are
   * `FilterUniqueKeys` of the collected list: ascending, each holding the first occurrence of its
   * value. They run 0, 1, ... (a JSON array) when nothing was dropped, and can leave gaps (a JSON
   * object) when a category repeats.
   */
  lemma CoreCategoryKeys(o: Order)
    ensures var collected := ItemListsOf(ClassBased, o.items).categories;
      var cats := CustomDataSpec(ClassBased, o).contentCategory;
      var keys := FilterUniqueKeys(collected);
      && |keys| == |cats|
      && (forall k :: 0 <= k < |keys| ==> cats[k] == collected[keys[k]] && cats[k] !in collected[..keys[k]])
      && (forall i, j :: 0 <= i < j < |keys| ==> keys[i] < keys[j])
  {
    FilterUniqueKeysValues(ItemListsOf(ClassBased, o.items).categories);
    FilterUniqueKeysFirst(ItemListsOf(ClassBased, o.items).categories);
  }

  // ---------------------------------------------------------------------------------------------
  // The whole payload
  // ---------------------------------------------------------------------------------------------

  /** `WC_SGTM_VERSION`. */
  const PluginVersion := "3.0.0"

  /** The site URLs `get_site_url()` and `get_home_url()` return. */
  datatype Site = Site(siteUrl: string, homeUrl: string)

  datatype Metadata = Metadata(
    source: string,
    /** 'plugin_version' in the class-based copy, 'version' in the procedural one. */
    versionKey: string,
    version: string,
    siteUrl: string,
    orderStatus: string,
    paymentMethod: string,
    orderDate: string)

  datatype Payload = Payload(
    clientName: string,
    eventName: string,
    eventTime: int,
    eventId: string,
    actionSource: string,
    eventSourceUrl: string,
    userData: UserData,
    customData: CustomData,
    metadata: Metadata)

  function MetadataOf(v: Variant, o: Order, site: Site): Metadata
    requires o.created.Some?
  {
    match v
    case ClassBased =>
      Metadata("woocommerce", "plugin_version", PluginVersion, site.siteUrl, o.status, o.paymentMethodTitle, o.created.value.iso)
    case Procedural =>
      Metadata("woocommerce", "version", "1.0", site.siteUrl, o.status, o.paymentMethod, o.created.value.iso)
  }

  /** The user data each copy builds, as written. */
  function UserDataOf(v: Variant, sha: string -> Digest, o: Order): UserData {
    match v
    case ClassBased => CoreUserData(sha, o)
    case Procedural => ProceduralUserData(sha, o)
  }

  function PayloadFrom(v: Variant, sha: string -> Digest, o: Order, site: Site, now: int, cd: CustomData): Payload
    requires o.created.Some?
  {
    Payload(
      "Data Client",
      "purchase",
      match v { case ClassBased => o.created.value.timestamp case Procedural => now },
      "wc_" + IntToString(o.id) + "_" + IntToString(now),
      "website",
      match v { case ClassBased => o.checkoutUrl case Procedural => site.homeUrl },
      UserDataOf(v, sha, o),
      cd,
      MetadataOf(v, o, site))
  }

  /**
   * `prepare_order_data` / `wc_sgtm_preparar_dados_pedido` at time `now`. The order id the
   * payload carries in `custom_data.order_id` reads back, through `(int)`, as the order's id,
   * and the event id is built from that same id and the sending time. The class-based copy
   * dates the event at the order's creation and points at its order-received page; the
   * procedural one dates it at `now` and points at the home page. Both read the creation date
   * through `get_date_created()->...`, so an order without one has no payload: the call on null
   * raises an Error, which the dispatchers model as a fatal end of the request.
   */
  function OrderPayload(v: Variant, sha: string -> Digest, o: Order, site: Site, now: int): (r: Payload)
    requires o.created.Some?
    ensures ToInt(Str(r.customData.orderId)) == o.id
    ensures r.eventId == "wc_" + r.customData.orderId + "_" + IntToString(now)
    ensures r.clientName == "Data Client" && r.actionSource == "website"
    ensures r.eventName == "purchase" && r.customData.contentType == "product"
    ensures v.ClassBased? ==> r.eventTime == o.created.value.timestamp && r.eventSourceUrl == o.checkoutUrl
    ensures v.Procedural? ==> r.eventTime == now && r.eventSourceUrl == site.homeUrl
    ensures r.userData == UserDataOf(v, sha, o) && r.customData == CustomDataSpec(v, o)
    ensures r.metadata.source == "woocommerce" && r.metadata.orderStatus == o.status && r.metadata.orderDate == o.created.value.iso
  {
    IntToStringRoundTrip(o.id);
    PayloadFrom(v, sha, o, site, now, CustomDataSpec(v, o))
  }

  /**
   * On billing data with no blank value the payload of either copy carries the corrected user
   * data, so every hash in it is paired with its plain value.
   */
  lemma OrderPayloadPairedWithoutBlanks(v: Variant, sha: string -> Digest, o: Order, site: Site, now: int)
    requires o.created.Some? && NoBlankBilling(o.billing)
    ensures OrderPayload(v, sha, o, site, now).userData == PairedUserData(sha, o)
    ensures OrderPayload(v, sha, o, site, now).userData.AllPaired()
  {
    CoreAgreesWithoutBlanks(sha, o);
    ProceduralAgreesWithoutBlanks(sha, o);
    PairedUserDataShape(sha, o);
  }

  method PrepareOrderData(v: Variant, sha: string -> Digest, o: Order, site: Site, now: int) returns (r: Payload)
    requires o.created.Some?
    ensures r == OrderPayload(v, sha, o, site, now)
  {
    var cd := PrepareCustomData(v, o);
    r := PayloadFrom(v, sha, o, site, now, cd);
  }
}
