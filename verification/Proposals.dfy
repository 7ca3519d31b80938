/** Proposal terms: which of their fields an approval is bound to. */
module Proposals {
  import opened CanonicalJson

  /** `amountMinor` is given by the text JSON prints for it. */
  datatype Terms = Terms(
    amountMinor: Text, currency: Text, period: Text, paymentBasis: Text, conditions: seq<Text>,
    inclusions: seq<Text>, partyIds: seq<Text>, deadlineAt: Text, deadlineTimezone: Text)

  datatype Field = AmountMinor | Currency | Period | Conditions | PartyIds | DeadlineAt | DeadlineTimezone

  const MATERIAL_FIELDS: seq<Field> := [AmountMinor, Currency, Period, Conditions, PartyIds, DeadlineAt, DeadlineTimezone]

  function ListItems(texts: seq<Text>): Items {
    if texts == [] then NoItems else Item(Str(texts[0]), ListItems(texts[1..]))
  }

  /** `terms[field]`. */
  function FieldOf(terms: Terms, field: Field): Json {
    match field
    case AmountMinor => Num(terms.amountMinor)
    case Currency => Str(terms.currency)
    case Period => Str(terms.period)
    case Conditions => Arr(ListItems(terms.conditions))
    case PartyIds => Arr(ListItems(terms.partyIds))
    case DeadlineAt => Str(terms.deadlineAt)
    case DeadlineTimezone => Str(terms.deadlineTimezone)
  }

  function Ascii(s: string): Text { seq(|s|, i requires 0 <= i < |s| => s[i] as int) }

  function NameOf(field: Field): Text {
    Ascii(match field
          case AmountMinor => "amountMinor"
          case Currency => "currency"
          case Period => "period"
          case Conditions => "conditions"
          case PartyIds => "partyIds"
          case DeadlineAt => "deadlineAt"
          case DeadlineTimezone => "deadlineTimezone")
  }

  lemma NamesDiffer(f: Field, g: Field)
    requires NameOf(f) == NameOf(g)
    ensures f == g
  {
    var a, b := NameOf(f), NameOf(g);
    assert |a| == |b|;
    assert a[0] == b[0];
    if |a| > 2 { assert a[2] == b[2]; }
    assert a[|a| - 1] == b[|b| - 1];
  }

  /** `materialChanges`. */
  function MaterialChanges(previous: Terms, next: Terms): seq<Field> {
    Changed(previous, next, MATERIAL_FIELDS)
  }

  function Changed(previous: Terms, next: Terms, fields: seq<Field>): seq<Field> {
    if fields == [] then []
    else (if Canonical(FieldOf(previous, fields[0])) != Canonical(FieldOf(next, fields[0])) then [fields[0]] else [])
         + Changed(previous, next, fields[1..])
  }

  function Entries(terms: Terms, fields: seq<Field>): Members {
    if fields == [] then NoMembers else Member(NameOf(fields[0]), FieldOf(terms, fields[0]), Entries(terms, fields[1..]))
  }

  /** `proposalApprovalContent`: the text an approval's hash is taken over. */
  function ApprovalContent(terms: Terms): Text { Canonical(Obj(Entries(terms, MATERIAL_FIELDS))) }

  predicate TermsOk(terms: Terms) { NumberText(terms.amountMinor) }

  /** The two proposals agree on this field. */
  predicate SameField(a: Terms, b: Terms, field: Field) {
    match field
    case AmountMinor => a.amountMinor == b.amountMinor
    case Currency => a.currency == b.currency
    case Period => a.period == b.period
    case Conditions => a.conditions == b.conditions
    case PartyIds => a.partyIds == b.partyIds
    case DeadlineAt => a.deadlineAt == b.deadlineAt
    case DeadlineTimezone => a.deadlineTimezone == b.deadlineTimezone
  }

  lemma {:induction false} ListOk(a: seq<Text>)
    ensures WellFormedItems(ListItems(a)) && |ItemMeanings(ListItems(a))| == |a|
  {
    if a != [] { ListOk(a[1..]); }
  }

  lemma {:induction false} ListsTell(a: seq<Text>, b: seq<Text>)
    requires ItemMeanings(ListItems(a)) == ItemMeanings(ListItems(b))
    ensures a == b
  {
    ListOk(a);
    ListOk(b);
    if a != [] {
      var m, n := ItemMeanings(ListItems(a)), ItemMeanings(ListItems(b));
      assert m[0] == n[0];
      assert m[1..] == ItemMeanings(ListItems(a[1..])) && n[1..] == ItemMeanings(ListItems(b[1..]));
      ListsTell(a[1..], b[1..]);
      assert a == [a[0]] + a[1..] && b == [b[0]] + b[1..];
    }
  }

  /** One field's canonical text is equal exactly when the field is. */
  lemma FieldTextTells(a: Terms, b: Terms, field: Field)
    requires TermsOk(a) && TermsOk(b)
    ensures WellFormed(FieldOf(a, field)) && WellFormed(FieldOf(b, field))
    ensures Canonical(FieldOf(a, field)) == Canonical(FieldOf(b, field)) <==> SameField(a, b, field)
    ensures Meaning(FieldOf(a, field)) == Meaning(FieldOf(b, field)) <==> SameField(a, b, field)
  {
    ListOk(a.conditions);
    ListOk(b.conditions);
    ListOk(a.partyIds);
    ListOk(b.partyIds);
    if Meaning(FieldOf(a, field)) == Meaning(FieldOf(b, field)) {
      match field
      case Conditions => ListsTell(a.conditions, b.conditions);
      case PartyIds => ListsTell(a.partyIds, b.partyIds);
      case _ =>
    }
    CanonicalTextIsContent(FieldOf(a, field), FieldOf(b, field));
  }

  lemma {:induction false} ChangedLists(a: Terms, b: Terms, fields: seq<Field>)
    requires TermsOk(a) && TermsOk(b)
    ensures forall f :: f in Changed(a, b, fields) <==> f in fields && !SameField(a, b, f)
  {
    if fields != [] {
      FieldTextTells(a, b, fields[0]);
      ChangedLists(a, b, fields[1..]);
      assert fields == [fields[0]] + fields[1..];
    }
  }

  predicate NoRepeats(fields: seq<Field>) { forall i, j :: 0 <= i < j < |fields| ==> fields[i] != fields[j] }

  lemma {:induction false} EntriesOk(terms: Terms, fields: seq<Field>)
    requires TermsOk(terms) && NoRepeats(fields)
    ensures WellFormedMembers(Entries(terms, fields))
    ensures forall f :: HasKey(Entries(terms, fields), NameOf(f)) <==> f in fields
  {
    if fields != [] {
      EntriesOk(terms, fields[1..]);
      FieldTextTells(terms, terms, fields[0]);
      forall f ensures HasKey(Entries(terms, fields), NameOf(f)) <==> f in fields {
        if NameOf(f) == NameOf(fields[0]) { NamesDiffer(f, fields[0]); }
      }
    }
  }

  lemma {:induction false} EntryMeaning(terms: Terms, fields: seq<Field>, f: Field)
    requires TermsOk(terms) && NoRepeats(fields) && f in fields
    ensures NameOf(f) in FieldMeanings(Entries(terms, fields))
    ensures FieldMeanings(Entries(terms, fields))[NameOf(f)] == Meaning(FieldOf(terms, f))
  {
    if f != fields[0] {
      EntryMeaning(terms, fields[1..], f);
      if NameOf(f) == NameOf(fields[0]) { NamesDiffer(f, fields[0]); }
    }
  }

  lemma {:induction false} EntriesAgree(a: Terms, b: Terms, fields: seq<Field>)
    requires TermsOk(a) && TermsOk(b) && forall f :: f in fields ==> SameField(a, b, f)
    ensures FieldMeanings(Entries(a, fields)) == FieldMeanings(Entries(b, fields))
  {
    if fields != [] {
      FieldTextTells(a, b, fields[0]);
      EntriesAgree(a, b, fields[1..]);
    }
  }

  /** `materialChanges` names exactly the material fields that differ. */
  lemma MaterialChangesAreTheDifferences(a: Terms, b: Terms, field: Field)
    requires TermsOk(a) && TermsOk(b)
    ensures field in MaterialChanges(a, b) <==> !SameField(a, b, field)
  {
    ChangedLists(a, b, MATERIAL_FIELDS);
    assert MATERIAL_FIELDS[0] == AmountMinor && MATERIAL_FIELDS[1] == Currency && MATERIAL_FIELDS[2] == Period
           && MATERIAL_FIELDS[3] == Conditions && MATERIAL_FIELDS[4] == PartyIds && MATERIAL_FIELDS[5] == DeadlineAt
           && MATERIAL_FIELDS[6] == DeadlineTimezone;
    assert field in MATERIAL_FIELDS;
  }

  /** An approval's content still matches exactly when no material field changed; payment basis and
      inclusions are free. */
  lemma ApprovalHoldsExactlyWithoutChanges(a: Terms, b: Terms)
    requires TermsOk(a) && TermsOk(b)
    ensures ApprovalContent(a) == ApprovalContent(b) <==> MaterialChanges(a, b) == []
    ensures MaterialChanges(a, b) == [] <==>
            b == a.(paymentBasis := b.paymentBasis, inclusions := b.inclusions)
  {
    var fields := MATERIAL_FIELDS;
    assert NoRepeats(fields);
    forall f ensures f in MaterialChanges(a, b) <==> !SameField(a, b, f) { MaterialChangesAreTheDifferences(a, b, f); }
    EntriesOk(a, fields);
    EntriesOk(b, fields);
    CanonicalTextIsContent(Obj(Entries(a, fields)), Obj(Entries(b, fields)));
    if ApprovalContent(a) == ApprovalContent(b) {
      forall f ensures SameField(a, b, f) {
        InMaterial(f);
        EntryMeaning(a, fields, f);
        EntryMeaning(b, fields, f);
        FieldTextTells(a, b, f);
      }
      NoneListed(MaterialChanges(a, b));
    }
    if MaterialChanges(a, b) == [] { EntriesAgree(a, b, fields); }
    AllFieldsSame(a, b);
    NoneListed(MaterialChanges(a, b));
  }

  lemma InMaterial(f: Field)
    ensures f in MATERIAL_FIELDS
  {
    assert MATERIAL_FIELDS[0] == AmountMinor && MATERIAL_FIELDS[1] == Currency && MATERIAL_FIELDS[2] == Period
           && MATERIAL_FIELDS[3] == Conditions && MATERIAL_FIELDS[4] == PartyIds && MATERIAL_FIELDS[5] == DeadlineAt
           && MATERIAL_FIELDS[6] == DeadlineTimezone;
  }

  lemma NoneListed(fields: seq<Field>)
    ensures (forall f :: f !in fields) <==> fields == []
  {
    if fields != [] { assert fields[0] in fields; }
  }

  lemma AllFieldsSame(a: Terms, b: Terms)
    ensures (forall f :: SameField(a, b, f)) <==> b == a.(paymentBasis := b.paymentBasis, inclusions := b.inclusions)
  {
    if forall f :: SameField(a, b, f) {
      assert SameField(a, b, AmountMinor) && SameField(a, b, Currency) && SameField(a, b, Period) && SameField(a, b, Conditions)
             && SameField(a, b, PartyIds) && SameField(a, b, DeadlineAt) && SameField(a, b, DeadlineTimezone);
    }
  }
}
