/** planTemplateFields (anchors.ts): the fields of a template on a set of scanned documents. */
module TemplatePlan {
  import opened Basics
  import opened EnvelopeState
  import opened EnvelopeFields
  import opened Anchors
  import opened FieldBoxes

  datatype Role = Role(key: string, initialsAllPages: bool, corner: Corner)

  datatype ScannedPage = ScannedPage(page: int, viewWidth: real, viewHeight: real, scan: AnchorScan)

  datatype ScannedDocument = ScannedDocument(ref: DocumentRowId, pages: seq<ScannedPage>)

  datatype PlannedField = PlannedField(ref: DocumentRowId, role: string, kind: FieldType, page: int, box: Box, anchored: bool)

  datatype PlacedAnchor = PlacedAnchor(ref: DocumentRowId, sheet: ScannedPage, anchor: FoundAnchor)

  /** `unknownRoles` is a sorted list in the source. */
  datatype Plan = Plan(
    fields: seq<PlannedField>,
    anchors: seq<PlacedAnchor>,
    missingSignature: seq<string>,
    unknownRoles: set<string>,
    invalid: seq<(DocumentRowId, InvalidAnchor)>)

  predicate IsPlanValid(plan: Plan) {
    plan.missingSignature == [] && plan.unknownRoles == {} && plan.invalid == []
  }

  /** A page of a document. */
  datatype Sheet = Sheet(ref: DocumentRowId, page: ScannedPage)

  predicate Sized(p: ScannedPage) {
    p.viewWidth > 0.0 && p.viewHeight > 0.0
  }

  predicate AllSized(docs: seq<ScannedDocument>) {
    forall d, p | d in docs && p in d.pages :: Sized(p)
  }

  function DocumentSheets(d: ScannedDocument, n: nat): (r: seq<Sheet>)
    requires n <= |d.pages|
  {
    if n == 0 then [] else DocumentSheets(d, n - 1) + [Sheet(d.ref, d.pages[n - 1])]
  }

  function Sheets(docs: seq<ScannedDocument>): seq<Sheet> {
    if docs == [] then []
    else
      var d := docs[|docs| - 1];
      Sheets(docs[..|docs| - 1]) + DocumentSheets(d, |d.pages|)
  }

  predicate SizedSheets(sheets: seq<Sheet>) {
    forall i | 0 <= i < |sheets| :: Sized(sheets[i].page)
  }

  // ---------------------------------------------------------------- what the plan holds

  function Keys(roles: seq<Role>): set<string> {
    set r | r in roles :: r.key
  }

  function FieldOf(a: PlacedAnchor): PlannedField
    requires Sized(a.sheet)
  {
    PlannedField(a.ref, a.anchor.role, a.anchor.kind, a.sheet.page, FieldFromAnchor(a.anchor, a.sheet.viewWidth, a.sheet.viewHeight), true)
  }

  /** The fields of the first `n` anchors of a page. */
  function AnchorFields(s: Sheet, keys: set<string>, n: nat): seq<PlannedField>
    requires Sized(s.page) && n <= |s.page.scan.anchors|
  {
    if n == 0 then []
    else
      var a := s.page.scan.anchors[n - 1];
      AnchorFields(s, keys, n - 1) + if a.role in keys then [FieldOf(PlacedAnchor(s.ref, s.page, a))] else []
  }

  function AnchoredInitials(s: Sheet, keys: set<string>, n: nat): set<string>
    requires n <= |s.page.scan.anchors|
  {
    set a | a in s.page.scan.anchors[..n] && a.role in keys && a.kind.InitialsField? :: a.role
  }

  predicate Automatic(r: Role, anchored: set<string>) {
    r.initialsAllPages && r.key !in anchored
  }

  /** How many of the first `n` roles were put into a corner. */
  function Slot(roles: seq<Role>, anchored: set<string>, corner: Corner, n: nat): nat
    requires n <= |roles|
  {
    if n == 0 then 0
    else Slot(roles, anchored, corner, n - 1) + if Automatic(roles[n - 1], anchored) && roles[n - 1].corner == corner then 1 else 0
  }

  function CornerField(s: Sheet, roles: seq<Role>, anchored: set<string>, i: nat): PlannedField
    requires Sized(s.page) && i < |roles|
  {
    var r := roles[i];
    PlannedField(s.ref, r.key, InitialsField, s.page.page,
                 CornerInitials(r.corner, Slot(roles, anchored, r.corner, i), s.page.viewWidth, s.page.viewHeight), false)
  }

  function CornerFields(s: Sheet, roles: seq<Role>, anchored: set<string>, n: nat): seq<PlannedField>
    requires Sized(s.page) && n <= |roles|
  {
    if n == 0 then []
    else CornerFields(s, roles, anchored, n - 1)
         + if Automatic(roles[n - 1], anchored) then [CornerField(s, roles, anchored, n - 1)] else []
  }

  function SheetFields(s: Sheet, roles: seq<Role>): seq<PlannedField>
    requires Sized(s.page)
  {
    var n := |s.page.scan.anchors|;
    AnchorFields(s, Keys(roles), n) + CornerFields(s, roles, AnchoredInitials(s, Keys(roles), n), |roles|)
  }

  function FieldsOf(sheets: seq<Sheet>, roles: seq<Role>): seq<PlannedField>
    requires SizedSheets(sheets)
  {
    if sheets == [] then []
    else FieldsOf(sheets[..|sheets| - 1], roles) + SheetFields(sheets[|sheets| - 1], roles)
  }

  function SheetAnchors(s: Sheet): seq<PlacedAnchor> {
    seq(|s.page.scan.anchors|, i requires 0 <= i < |s.page.scan.anchors| => PlacedAnchor(s.ref, s.page, s.page.scan.anchors[i]))
  }

  function AnchorsOf(sheets: seq<Sheet>): seq<PlacedAnchor> {
    if sheets == [] then [] else AnchorsOf(sheets[..|sheets| - 1]) + SheetAnchors(sheets[|sheets| - 1])
  }

  function SheetInvalid(s: Sheet): seq<(DocumentRowId, InvalidAnchor)> {
    seq(|s.page.scan.invalid|, i requires 0 <= i < |s.page.scan.invalid| => (s.ref, s.page.scan.invalid[i]))
  }

  function InvalidOf(sheets: seq<Sheet>): seq<(DocumentRowId, InvalidAnchor)> {
    if sheets == [] then [] else InvalidOf(sheets[..|sheets| - 1]) + SheetInvalid(sheets[|sheets| - 1])
  }

  /** Roles of anchors that no role of the template has. */
  function UnknownIn(anchors: seq<PlacedAnchor>, keys: set<string>): set<string> {
    set a | a in anchors && a.anchor.role !in keys :: a.anchor.role
  }

  /** Roles with a signature anchor. */
  function SignedIn(anchors: seq<PlacedAnchor>, keys: set<string>): set<string> {
    set a | a in anchors && a.anchor.role in keys && a.anchor.kind.SignatureField? :: a.anchor.role
  }

  function Missing(roles: seq<Role>, signed: set<string>): (r: seq<string>)
    ensures r == [] <==> forall i | 0 <= i < |roles| :: roles[i].key in signed
  {
    if roles == [] then [] else Missing(roles[..|roles| - 1], signed) + Unless(roles[|roles| - 1].key, signed)
  }

  function Unless(key: string, signed: set<string>): seq<string> {
    if key in signed then [] else [key]
  }

  function PlanOf(roles: seq<Role>, sheets: seq<Sheet>): Plan
    requires SizedSheets(sheets)
  {
    var anchors := AnchorsOf(sheets);
    Plan(FieldsOf(sheets, roles), anchors, Missing(roles, SignedIn(anchors, Keys(roles))), UnknownIn(anchors, Keys(roles)), InvalidOf(sheets))
  }

  // ---------------------------------------------------------------- a valid plan is complete

  /** The fields that come from anchors. */
  function Anchored(fields: seq<PlannedField>): seq<PlannedField> {
    if fields == [] then []
    else Anchored(fields[..|fields| - 1]) + if fields[|fields| - 1].anchored then [fields[|fields| - 1]] else []
  }

  lemma {:induction false} AnchoredJoins(a: seq<PlannedField>, b: seq<PlannedField>)
    ensures Anchored(a + b) == Anchored(a) + Anchored(b)
    decreases |b|
  {
    if b == [] {
      assert a + b == a;
    } else {
      assert (a + b)[..|a + b| - 1] == a + b[..|b| - 1];
      AnchoredJoins(a, b[..|b| - 1]);
    }
  }

  function Mapped(anchors: seq<PlacedAnchor>): (r: seq<PlannedField>)
    requires forall a | a in anchors :: Sized(a.sheet)
    ensures |r| == |anchors|
  {
    if anchors == [] then [] else Mapped(anchors[..|anchors| - 1]) + [FieldOf(anchors[|anchors| - 1])]
  }

  lemma {:induction false} MappedJoins(a: seq<PlacedAnchor>, b: seq<PlacedAnchor>)
    requires forall x | x in a + b :: Sized(x.sheet)
    ensures (forall x | x in a :: Sized(x.sheet)) && (forall x | x in b :: Sized(x.sheet))
    ensures Mapped(a + b) == Mapped(a) + Mapped(b)
    decreases |b|
  {
    forall x | x in a ensures Sized(x.sheet) { assert x in a + b; }
    forall x | x in b ensures Sized(x.sheet) { assert x in a + b; }
    if b == [] {
      assert a + b == a;
    } else {
      assert (a + b)[..|a + b| - 1] == a + b[..|b| - 1];
      MappedJoins(a, b[..|b| - 1]);
    }
  }

  lemma {:induction false} AnchorFieldsAreMapped(s: Sheet, keys: set<string>, n: nat)
    requires Sized(s.page) && n <= |s.page.scan.anchors|
    requires forall i | 0 <= i < n :: s.page.scan.anchors[i].role in keys
    ensures Anchored(AnchorFields(s, keys, n)) == Mapped(SheetAnchors(s)[..n])
  {
    if n > 0 {
      AnchorFieldsAreMapped(s, keys, n - 1);
      assert SheetAnchors(s)[..n][..n - 1] == SheetAnchors(s)[..n - 1];
      AnchoredJoins(AnchorFields(s, keys, n - 1), [FieldOf(PlacedAnchor(s.ref, s.page, s.page.scan.anchors[n - 1]))]);
    }
  }

  lemma {:induction false} CornerFieldsAreNotAnchored(s: Sheet, roles: seq<Role>, anchored: set<string>, n: nat)
    requires Sized(s.page) && n <= |roles|
    ensures Anchored(CornerFields(s, roles, anchored, n)) == []
  {
    if n > 0 {
      CornerFieldsAreNotAnchored(s, roles, anchored, n - 1);
      if Automatic(roles[n - 1], anchored) {
        AnchoredJoins(CornerFields(s, roles, anchored, n - 1), [CornerField(s, roles, anchored, n - 1)]);
      } else {
        assert CornerFields(s, roles, anchored, n) == CornerFields(s, roles, anchored, n - 1);
      }
    }
  }

  lemma SheetFieldsAreMapped(s: Sheet, roles: seq<Role>)
    requires Sized(s.page) && forall a | a in s.page.scan.anchors :: a.role in Keys(roles)
    ensures Anchored(SheetFields(s, roles)) == Mapped(SheetAnchors(s))
  {
    var n := |s.page.scan.anchors|;
    var anchored := AnchoredInitials(s, Keys(roles), n);
    AnchorFieldsAreMapped(s, Keys(roles), n);
    CornerFieldsAreNotAnchored(s, roles, anchored, |roles|);
    AnchoredJoins(AnchorFields(s, Keys(roles), n), CornerFields(s, roles, anchored, |roles|));
    assert SheetAnchors(s)[..n] == SheetAnchors(s);
  }

  ghost predicate AllKnown(sheets: seq<Sheet>, keys: set<string>) {
    forall s, a | s in sheets && a in s.page.scan.anchors :: a.role in keys
  }

  lemma {:induction false} AnchorsAreSized(sheets: seq<Sheet>)
    requires SizedSheets(sheets)
    ensures forall a | a in AnchorsOf(sheets) :: Sized(a.sheet)
  {
    if sheets != [] {
      AnchorsAreSized(sheets[..|sheets| - 1]);
    }
  }

  lemma {:induction false} FieldsAreMapped(sheets: seq<Sheet>, roles: seq<Role>)
    requires SizedSheets(sheets) && AllKnown(sheets, Keys(roles))
    ensures forall a | a in AnchorsOf(sheets) :: Sized(a.sheet)
    ensures Anchored(FieldsOf(sheets, roles)) == Mapped(AnchorsOf(sheets))
  {
    AnchorsAreSized(sheets);
    if sheets != [] {
      var front, last := sheets[..|sheets| - 1], sheets[|sheets| - 1];
      FieldsAreMapped(front, roles);
      SheetFieldsAreMapped(last, roles);
      AnchoredJoins(FieldsOf(front, roles), SheetFields(last, roles));
      MappedJoins(AnchorsOf(front), SheetAnchors(last));
    }
  }

  lemma {:induction false} AnchorsListed(sheets: seq<Sheet>, s: Sheet, a: FoundAnchor)
    requires s in sheets && a in s.page.scan.anchors
    ensures PlacedAnchor(s.ref, s.page, a) in AnchorsOf(sheets)
  {
    var last := sheets[|sheets| - 1];
    if s == last {
      var i :| 0 <= i < |s.page.scan.anchors| && s.page.scan.anchors[i] == a;
      assert SheetAnchors(s)[i] == PlacedAnchor(s.ref, s.page, a);
    } else {
      assert s in sheets[..|sheets| - 1];
      AnchorsListed(sheets[..|sheets| - 1], s, a);
    }
  }

  lemma NoUnknownRoles(sheets: seq<Sheet>, keys: set<string>)
    requires UnknownIn(AnchorsOf(sheets), keys) == {}
    ensures AllKnown(sheets, keys)
  {
    forall s, a | s in sheets && a in s.page.scan.anchors ensures a.role in keys {
      AnchorsListed(sheets, s, a);
      var p := PlacedAnchor(s.ref, s.page, a);
      assert p.anchor.role !in keys ==> p.anchor.role in UnknownIn(AnchorsOf(sheets), keys);
    }
  }

  /** In a valid plan the fields that come from anchors are the anchors' fields: one each, in order. */
  lemma ValidPlanFollowsAnchors(roles: seq<Role>, sheets: seq<Sheet>)
    requires SizedSheets(sheets) && IsPlanValid(PlanOf(roles, sheets))
    ensures var plan := PlanOf(roles, sheets);
            (forall a | a in plan.anchors :: Sized(a.sheet)) && Anchored(plan.fields) == Mapped(plan.anchors)
  {
    NoUnknownRoles(sheets, Keys(roles));
    FieldsAreMapped(sheets, roles);
  }

  lemma {:induction false} AnchoredAreFields(fields: seq<PlannedField>)
    ensures forall f | f in Anchored(fields) :: f in fields
  {
    if fields != [] {
      AnchoredAreFields(fields[..|fields| - 1]);
    }
  }

  lemma {:induction false} MappedHas(anchors: seq<PlacedAnchor>, a: PlacedAnchor)
    requires (forall x | x in anchors :: Sized(x.sheet)) && a in anchors
    ensures FieldOf(a) in Mapped(anchors)
  {
    if a != anchors[|anchors| - 1] {
      assert a in anchors[..|anchors| - 1];
      MappedHas(anchors[..|anchors| - 1], a);
    }
  }

  /** In a valid plan every role has a field to sign in. */
  lemma EveryRoleSigns(roles: seq<Role>, sheets: seq<Sheet>, r: Role) returns (f: PlannedField)
    requires SizedSheets(sheets) && IsPlanValid(PlanOf(roles, sheets)) && r in roles
    ensures f in PlanOf(roles, sheets).fields && f.role == r.key && f.kind.SignatureField?
  {
    var plan := PlanOf(roles, sheets);
    ValidPlanFollowsAnchors(roles, sheets);
    var i :| 0 <= i < |roles| && roles[i] == r;
    assert roles[i].key in SignedIn(plan.anchors, Keys(roles));
    var a :| a in plan.anchors && a.anchor.role == r.key && a.anchor.kind.SignatureField?;
    MappedHas(plan.anchors, a);
    AnchoredAreFields(plan.fields);
    f := FieldOf(a);
  }

  // ---------------------------------------------------------------- automatic initials

  lemma {:induction false} CornerFieldsHas(s: Sheet, roles: seq<Role>, anchored: set<string>, n: nat, i: nat)
    requires Sized(s.page) && i < n <= |roles| && Automatic(roles[i], anchored)
    ensures CornerField(s, roles, anchored, i) in CornerFields(s, roles, anchored, n)
  {
    if i < n - 1 {
      CornerFieldsHas(s, roles, anchored, n - 1, i);
    }
  }

  lemma {:induction false} AnchorFieldsHas(s: Sheet, keys: set<string>, n: nat, i: nat)
    requires Sized(s.page) && i < n <= |s.page.scan.anchors| && s.page.scan.anchors[i].role in keys
    ensures FieldOf(PlacedAnchor(s.ref, s.page, s.page.scan.anchors[i])) in AnchorFields(s, keys, n)
  {
    if i < n - 1 {
      AnchorFieldsHas(s, keys, n - 1, i);
    }
  }

  /** A role that initials all pages has a field for it on the page: its own marker's, or an automatic one. */
  lemma SheetHasInitials(s: Sheet, roles: seq<Role>, i: nat) returns (f: PlannedField)
    requires Sized(s.page) && i < |roles| && roles[i].initialsAllPages
    ensures f in SheetFields(s, roles) && f.ref == s.ref && f.page == s.page.page && f.role == roles[i].key && f.kind.InitialsField?
  {
    var n := |s.page.scan.anchors|;
    var anchored := AnchoredInitials(s, Keys(roles), n);
    if Automatic(roles[i], anchored) {
      CornerFieldsHas(s, roles, anchored, |roles|, i);
      f := CornerField(s, roles, anchored, i);
    } else {
      assert s.page.scan.anchors[..n] == s.page.scan.anchors;
      var j :| 0 <= j < n && s.page.scan.anchors[j].role == roles[i].key && s.page.scan.anchors[j].kind.InitialsField?;
      assert roles[i] in roles;
      AnchorFieldsHas(s, Keys(roles), n, j);
      f := FieldOf(PlacedAnchor(s.ref, s.page, s.page.scan.anchors[j]));
    }
  }

  lemma {:induction false} SheetFieldsListed(sheets: seq<Sheet>, roles: seq<Role>, s: Sheet, f: PlannedField)
    requires SizedSheets(sheets) && s in sheets && Sized(s.page) && f in SheetFields(s, roles)
    ensures f in FieldsOf(sheets, roles)
  {
    if s != sheets[|sheets| - 1] {
      assert s in sheets[..|sheets| - 1];
      SheetFieldsListed(sheets[..|sheets| - 1], roles, s, f);
    }
  }

  lemma EveryPageIsInitialed(roles: seq<Role>, sheets: seq<Sheet>, s: Sheet, i: nat) returns (f: PlannedField)
    requires SizedSheets(sheets) && s in sheets && i < |roles| && roles[i].initialsAllPages
    ensures f in PlanOf(roles, sheets).fields
    ensures f.ref == s.ref && f.page == s.page.page && f.role == roles[i].key && f.kind.InitialsField?
  {
    var j :| 0 <= j < |sheets| && sheets[j] == s;
    assert Sized(sheets[j].page);
    f := SheetHasInitials(s, roles, i);
    SheetFieldsListed(sheets, roles, s, f);
  }

  lemma {:induction false} SlotsGrow(roles: seq<Role>, anchored: set<string>, corner: Corner, i: nat, n: nat)
    requires i < n <= |roles| && Automatic(roles[i], anchored) && roles[i].corner == corner
    ensures Slot(roles, anchored, corner, i) < Slot(roles, anchored, corner, n)
  {
    if i < n - 1 {
      SlotsGrow(roles, anchored, corner, i, n - 1);
    }
  }

  predicate InCorner(roles: seq<Role>, anchored: set<string>, corner: Corner, i: nat) {
    i < |roles| && Automatic(roles[i], anchored) && roles[i].corner == corner
  }

  /** The role that got a slot. */
  lemma {:induction false} RoleOfSlot(roles: seq<Role>, anchored: set<string>, corner: Corner, k: nat, n: nat) returns (i: nat)
    requires n <= |roles| && k < Slot(roles, anchored, corner, n)
    ensures i < n && InCorner(roles, anchored, corner, i) && Slot(roles, anchored, corner, i) == k
  {
    if k == Slot(roles, anchored, corner, n - 1) {
      i := n - 1;
    } else {
      i := RoleOfSlot(roles, anchored, corner, k, n - 1);
    }
  }

  lemma {:induction false} SlotsNeverShrink(roles: seq<Role>, anchored: set<string>, corner: Corner, i: nat, n: nat)
    requires i <= n <= |roles|
    ensures Slot(roles, anchored, corner, i) <= Slot(roles, anchored, corner, n)
  {
    if i < n {
      SlotsNeverShrink(roles, anchored, corner, i, n - 1);
    }
  }

  /** The automatic initials of a page that share a corner are pairwise disjoint. */
  ghost predicate CornerApart(s: Sheet, roles: seq<Role>, anchored: set<string>, corner: Corner)
    requires Sized(s.page)
  {
    forall i: nat, j: nat | i < j && InCorner(roles, anchored, corner, i) && InCorner(roles, anchored, corner, j) ::
      Apart(CornerField(s, roles, anchored, i).box, CornerField(s, roles, anchored, j).box)
  }

  /** The initials planned for one corner of a page are pairwise disjoint exactly when they are at most one, or the page
      is at least 62 points wide for each of them and 6 more. */
  lemma CornerFieldsApart(s: Sheet, roles: seq<Role>, anchored: set<string>, corner: Corner)
    requires Sized(s.page)
    ensures var n := Slot(roles, anchored, corner, |roles|);
            CornerApart(s, roles, anchored, corner) <==> n <= 1 || s.page.viewWidth >= 62.0 * n as real + 6.0
  {
    var n := Slot(roles, anchored, corner, |roles|);
    if n <= 1 || s.page.viewWidth >= 62.0 * n as real + 6.0 {
      CornerHasRoom(corner, n, s.page.viewWidth, s.page.viewHeight);
      forall i: nat, j: nat | i < j && InCorner(roles, anchored, corner, i) && InCorner(roles, anchored, corner, j)
        ensures Apart(CornerField(s, roles, anchored, i).box, CornerField(s, roles, anchored, j).box)
      {
        SlotsGrow(roles, anchored, corner, i, j);
        SlotsGrow(roles, anchored, corner, j, |roles|);
      }
    } else {
      CornerCrowded(s, roles, anchored, corner, n);
    }
  }

  lemma CornerCrowded(s: Sheet, roles: seq<Role>, anchored: set<string>, corner: Corner, n: nat)
    requires Sized(s.page) && n == Slot(roles, anchored, corner, |roles|)
    requires n >= 2 && s.page.viewWidth < 62.0 * n as real + 6.0
    ensures !CornerApart(s, roles, anchored, corner)
  {
    var i := RoleOfSlot(roles, anchored, corner, n - 2, |roles|);
    var j := RoleOfSlot(roles, anchored, corner, n - 1, |roles|);
    if j < i {
      SlotsNeverShrink(roles, anchored, corner, j, i);
    }
    LastTwoOverlap(corner, n, s.page.viewWidth, s.page.viewHeight);
    assert !Apart(CornerField(s, roles, anchored, i).box, CornerField(s, roles, anchored, j).box);
  }

  /** On an upright A4 page a corner has room for nine initials; of the ten roles a template may have, two overlap. */
  lemma NineFitOnA4(s: Sheet, roles: seq<Role>, anchored: set<string>, corner: Corner)
    requires Sized(s.page) && s.page.viewWidth == 595.28
    ensures CornerApart(s, roles, anchored, corner) <==> Slot(roles, anchored, corner, |roles|) <= 9
  {
    CornerFieldsApart(s, roles, anchored, corner);
  }

  // ---------------------------------------------------------------- the envelope accepts the fields

  /** The scanned documents are documents of the envelope and their pages exist. */
  ghost predicate Fits(sheets: seq<Sheet>, pages: map<DocumentRowId, int>) {
    forall s | s in sheets :: s.ref in pages && s.page.page <= pages[s.ref]
  }

  function AsField(f: PlannedField, signers: map<string, SignerId>): Field
    requires f.role in signers
  {
    Field(f.ref, signers[f.role], f.kind, f.page, f.box)
  }

  ghost predicate Good(f: PlannedField, keys: set<string>, pages: map<DocumentRowId, int>) {
    OnPage(f.box) && f.role in keys && f.ref in pages && f.page <= pages[f.ref]
  }

  lemma {:induction false} AnchorFieldsGood(s: Sheet, keys: set<string>, n: nat, pages: map<DocumentRowId, int>)
    requires Sized(s.page) && n <= |s.page.scan.anchors| && s.ref in pages && s.page.page <= pages[s.ref]
    ensures forall f | f in AnchorFields(s, keys, n) :: Good(f, keys, pages)
  {
    if n > 0 {
      AnchorFieldsGood(s, keys, n - 1, pages);
      BoxesAreOnPage(s.page.scan.anchors[n - 1], TopLeft, 0, s.page.viewWidth, s.page.viewHeight);
    }
  }

  lemma CornerFieldGood(s: Sheet, roles: seq<Role>, anchored: set<string>, i: nat, pages: map<DocumentRowId, int>)
    requires Sized(s.page) && i < |roles| && s.ref in pages && s.page.page <= pages[s.ref]
    ensures Good(CornerField(s, roles, anchored, i), Keys(roles), pages)
  {
    var a := FoundAnchor("", InitialsField, "", 0, AnchorBox(0.0, 0.0, 0.0, 0.0, 0.0));
    BoxesAreOnPage(a, roles[i].corner, Slot(roles, anchored, roles[i].corner, i), s.page.viewWidth, s.page.viewHeight);
    assert roles[i] in roles;
  }

  lemma {:induction false} CornerFieldsGood(s: Sheet, roles: seq<Role>, anchored: set<string>, n: nat, pages: map<DocumentRowId, int>)
    requires Sized(s.page) && n <= |roles| && s.ref in pages && s.page.page <= pages[s.ref]
    ensures forall f | f in CornerFields(s, roles, anchored, n) :: Good(f, Keys(roles), pages)
  {
    if n > 0 {
      CornerFieldsGood(s, roles, anchored, n - 1, pages);
      CornerFieldGood(s, roles, anchored, n - 1, pages);
    }
  }

  lemma {:induction false} FieldsGood(sheets: seq<Sheet>, roles: seq<Role>, pages: map<DocumentRowId, int>)
    requires SizedSheets(sheets) && Fits(sheets, pages)
    ensures forall f | f in FieldsOf(sheets, roles) :: Good(f, Keys(roles), pages)
  {
    if sheets != [] {
      var s := sheets[|sheets| - 1];
      assert s in sheets;
      FieldsGood(sheets[..|sheets| - 1], roles, pages);
      AnchorFieldsGood(s, Keys(roles), |s.page.scan.anchors|, pages);
      CornerFieldsGood(s, roles, AnchoredInitials(s, Keys(roles), |s.page.scan.anchors|), |roles|, pages);
    }
  }

  /** Whoever signs for the roles, replacing the envelope's fields by the planned ones is accepted. */
  lemma PlannedFieldsAreAccepted(roles: seq<Role>, sheets: seq<Sheet>, pages: map<DocumentRowId, int>,
                                 signers: map<string, SignerId>, rows: set<SignerId>)
    requires SizedSheets(sheets) && Fits(sheets, pages)
    requires Keys(roles) <= signers.Keys && signers.Values <= rows
    ensures forall f | f in PlanOf(roles, sheets).fields :: f.role in signers
    ensures FieldsAccepted(seq(|PlanOf(roles, sheets).fields|, i requires 0 <= i < |PlanOf(roles, sheets).fields| =>
                             assert PlanOf(roles, sheets).fields[i] in PlanOf(roles, sheets).fields;
                             AsField(PlanOf(roles, sheets).fields[i], signers)), pages, rows)
  {
    FieldsGood(sheets, roles, pages);
    forall f | f in PlanOf(roles, sheets).fields
      ensures f.role in signers && FieldAccepted(AsField(f, signers), pages, rows)
    {
      assert Good(f, Keys(roles), pages);
      assert signers[f.role] in signers.Values;
    }
  }

  // ---------------------------------------------------------------- as it is written

  datatype Progress = Progress(
    fields: seq<PlannedField>,
    anchors: seq<PlacedAnchor>,
    invalid: seq<(DocumentRowId, InvalidAnchor)>,
    unknown: set<string>,
    signed: set<string>)

  function ProgressOf(sheets: seq<Sheet>, roles: seq<Role>): Progress
    requires SizedSheets(sheets)
  {
    var anchors := AnchorsOf(sheets);
    Progress(FieldsOf(sheets, roles), anchors, InvalidOf(sheets), UnknownIn(anchors, Keys(roles)), SignedIn(anchors, Keys(roles)))
  }

  lemma RolesSplit(a: seq<PlacedAnchor>, b: seq<PlacedAnchor>, keys: set<string>)
    ensures UnknownIn(a + b, keys) == UnknownIn(a, keys) + UnknownIn(b, keys)
    ensures SignedIn(a + b, keys) == SignedIn(a, keys) + SignedIn(b, keys)
  {
  }

  /** The loop over the anchors of one page. */
  method PlanAnchors(s: Sheet, keys: set<string>, before: Progress) returns (p: Progress, anchoredInitials: set<string>)
    requires Sized(s.page)
    ensures anchoredInitials == AnchoredInitials(s, keys, |s.page.scan.anchors|)
    ensures p == Progress(before.fields + AnchorFields(s, keys, |s.page.scan.anchors|), before.anchors + SheetAnchors(s), before.invalid,
                          before.unknown + UnknownIn(SheetAnchors(s), keys), before.signed + SignedIn(SheetAnchors(s), keys))
  {
    var fields, anchors, unknown, signed := before.fields, before.anchors, before.unknown, before.signed;
    anchoredInitials := {};
    ghost var all := SheetAnchors(s);
    var n := 0;
    while n < |s.page.scan.anchors|
      invariant 0 <= n <= |s.page.scan.anchors|
      invariant fields == before.fields + AnchorFields(s, keys, n)
      invariant anchors == before.anchors + all[..n]
      invariant unknown == before.unknown + UnknownIn(all[..n], keys)
      invariant signed == before.signed + SignedIn(all[..n], keys)
      invariant anchoredInitials == AnchoredInitials(s, keys, n)
    {
      var a := s.page.scan.anchors[n];
      OneAnchor(s, keys, n);
      anchors := anchors + [PlacedAnchor(s.ref, s.page, a)];
      if a.role !in keys {
        unknown := unknown + {a.role};
      } else {
        if a.kind.SignatureField? { signed := signed + {a.role}; }
        if a.kind.InitialsField? { anchoredInitials := anchoredInitials + {a.role}; }
        fields := fields + [FieldOf(PlacedAnchor(s.ref, s.page, a))];
      }
      n := n + 1;
    }
    assert all[..n] == all;
    p := Progress(fields, anchors, before.invalid, unknown, signed);
  }

  lemma OneAnchor(s: Sheet, keys: set<string>, n: nat)
    requires n < |s.page.scan.anchors|
    ensures var a := s.page.scan.anchors[n]; var all := SheetAnchors(s);
            && all[..n + 1] == all[..n] + [PlacedAnchor(s.ref, s.page, a)]
            && UnknownIn(all[..n + 1], keys) == UnknownIn(all[..n], keys) + (if a.role in keys then {} else {a.role})
            && SignedIn(all[..n + 1], keys) == SignedIn(all[..n], keys) + (if a.role in keys && a.kind.SignatureField? then {a.role} else {})
            && AnchoredInitials(s, keys, n + 1)
               == AnchoredInitials(s, keys, n) + (if a.role in keys && a.kind.InitialsField? then {a.role} else {})
  {
    var a := s.page.scan.anchors[n];
    var all := SheetAnchors(s);
    assert all[..n + 1] == all[..n] + [PlacedAnchor(s.ref, s.page, a)];
    RolesSplit(all[..n], [PlacedAnchor(s.ref, s.page, a)], keys);
    OnlyRole(PlacedAnchor(s.ref, s.page, a), keys);
    assert s.page.scan.anchors[..n + 1] == s.page.scan.anchors[..n] + [a];
  }

  lemma OnlyRole(a: PlacedAnchor, keys: set<string>)
    ensures UnknownIn([a], keys) == if a.anchor.role in keys then {} else {a.anchor.role}
    ensures SignedIn([a], keys) == if a.anchor.role in keys && a.anchor.kind.SignatureField? then {a.anchor.role} else {}
  {
  }

  /** The loop over the roles for one page; `slots` remembers how full each corner is. */
  method PlanCorners(s: Sheet, roles: seq<Role>, anchored: set<string>) returns (fields: seq<PlannedField>)
    requires Sized(s.page)
    ensures fields == CornerFields(s, roles, anchored, |roles|)
  {
    fields := [];
    var slots: map<Corner, nat> := map[];
    var n := 0;
    while n < |roles|
      invariant 0 <= n <= |roles|
      invariant forall c: Corner :: (if c in slots then slots[c] else 0) == Slot(roles, anchored, c, n)
      invariant fields == CornerFields(s, roles, anchored, n)
    {
      var r := roles[n];
      if Automatic(r, anchored) {
        var slot := if r.corner in slots then slots[r.corner] else 0;
        slots := slots[r.corner := slot + 1];
        fields := fields + [PlannedField(s.ref, r.key, InitialsField, s.page.page,
                                         CornerInitials(r.corner, slot, s.page.viewWidth, s.page.viewHeight), false)];
      }
      n := n + 1;
    }
  }

  method PlanPage(s: Sheet, roles: seq<Role>, ghost done: seq<Sheet>, before: Progress) returns (p: Progress)
    requires Sized(s.page) && SizedSheets(done) && before == ProgressOf(done, roles)
    ensures SizedSheets(done + [s]) && p == ProgressOf(done + [s], roles)
  {
    OneSheetMore(done, s, roles);
    var anchoredInitials: set<string>;
    p, anchoredInitials := PlanAnchors(s, Keys(roles), before);
    var corners := PlanCorners(s, roles, anchoredInitials);
    p := p.(fields := p.fields + corners, invalid := p.invalid + SheetInvalid(s));
    PageFields(before.fields, s, roles);
    RolesSplit(AnchorsOf(done), SheetAnchors(s), Keys(roles));
  }

  lemma PageFields(before: seq<PlannedField>, s: Sheet, roles: seq<Role>)
    requires Sized(s.page)
    ensures var n := |s.page.scan.anchors|;
            before + AnchorFields(s, Keys(roles), n) + CornerFields(s, roles, AnchoredInitials(s, Keys(roles), n), |roles|)
            == before + SheetFields(s, roles)
  {
  }

  lemma OneSheetMore(done: seq<Sheet>, s: Sheet, roles: seq<Role>)
    requires SizedSheets(done) && Sized(s.page)
    ensures SizedSheets(done + [s]) && FieldsOf(done + [s], roles) == FieldsOf(done, roles) + SheetFields(s, roles)
    ensures AnchorsOf(done + [s]) == AnchorsOf(done) + SheetAnchors(s)
    ensures InvalidOf(done + [s]) == InvalidOf(done) + SheetInvalid(s)
  {
    assert (done + [s])[..|done|] == done;
  }

  method PlanTemplateFields(roles: seq<Role>, docs: seq<ScannedDocument>) returns (plan: Plan)
    requires AllSized(docs)
    ensures SizedSheets(Sheets(docs)) && plan == PlanOf(roles, Sheets(docs))
  {
    var p := Progress([], [], [], {}, {});
    var i := 0;
    while i < |docs|
      invariant 0 <= i <= |docs|
      invariant SizedSheets(Sheets(docs[..i])) && p == ProgressOf(Sheets(docs[..i]), roles)
    {
      p := PlanDocument(roles, docs[i], Sheets(docs[..i]), p);
      assert docs[..i + 1][..i] == docs[..i];
      i := i + 1;
    }
    assert docs[..i] == docs;
    plan := Plan(p.fields, p.anchors, Missing(roles, p.signed), p.unknown, p.invalid);
  }

  method PlanDocument(roles: seq<Role>, d: ScannedDocument, ghost done: seq<Sheet>, before: Progress) returns (p: Progress)
    requires SizedSheets(done) && before == ProgressOf(done, roles) && forall x | x in d.pages :: Sized(x)
    ensures SizedSheets(done + DocumentSheets(d, |d.pages|)) && p == ProgressOf(done + DocumentSheets(d, |d.pages|), roles)
  {
    p := before;
    var j := 0;
    assert done + DocumentSheets(d, 0) == done;
    while j < |d.pages|
      invariant 0 <= j <= |d.pages|
      invariant SizedSheets(done + DocumentSheets(d, j)) && p == ProgressOf(done + DocumentSheets(d, j), roles)
    {
      p := PlanPage(Sheet(d.ref, d.pages[j]), roles, done + DocumentSheets(d, j), p);
      assert done + DocumentSheets(d, j) + [Sheet(d.ref, d.pages[j])] == done + DocumentSheets(d, j + 1);
      j := j + 1;
    }
  }
}
