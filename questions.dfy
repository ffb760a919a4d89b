/**
 * The fixed question bank of the membership survey: eight comparison sets,
 * each offering two plan bundles described by five display attributes.
 * The bank is constant data; nothing in the survey ever changes it.
 */
module Questions {
  import opened Sequences

  /** The attribute levels the bundles are built from. Each level stands for
      the display string given by its `Label`. */
  datatype ClassCount = Classes4 | Classes8 | Classes12 | Unlimited
  datatype MonthlyPrice = Price139 | Price199 | Price269 | Price349
  datatype Commitment = MonthToMonth | Months3 | Months6 | Months12
  datatype Recovery = NoRecovery | TowelService | RecoveryLounge | RecoveryPlusPT
  datatype StrategicPerk = StandardBooking | PriorityBooking | PassportAllLocs | PassportPlusGuest

  /** One plan bundle: a level for each of the five attributes. */
  datatype Bundle = Bundle(
    classCount: ClassCount,
    monthlyPrice: MonthlyPrice,
    commitment: Commitment,
    recovery: Recovery,
    strategicPerk: StrategicPerk)

  /** One comparison set: an identifier and the two options shown side by side. */
  datatype QuestionSet = QuestionSet(questionId: int, optionA: Bundle, optionB: Bundle)

  function ClassCountLabel(c: ClassCount): string {
    match c
    case Classes4 => "4 Classes"
    case Classes8 => "8 Classes"
    case Classes12 => "12 Classes"
    case Unlimited => "Unlimited"
  }

  function PriceLabel(p: MonthlyPrice): string {
    match p
    case Price139 => "$139"
    case Price199 => "$199"
    case Price269 => "$269"
    case Price349 => "$349"
  }

  function CommitmentLabel(c: Commitment): string {
    match c
    case MonthToMonth => "Month-to-Month"
    case Months3 => "3-Month"
    case Months6 => "6-Month"
    case Months12 => "12-Month"
  }

  function RecoveryLabel(r: Recovery): string {
    match r
    case NoRecovery => "None"
    case TowelService => "Towel Service"
    case RecoveryLounge => "Recovery Lounge"
    case RecoveryPlusPT => "Recovery + PT"
  }

  function PerkLabel(p: StrategicPerk): string {
    match p
    case StandardBooking => "Standard Booking"
    case PriorityBooking => "Priority Booking"
    case PassportAllLocs => "Passport (All Locs)"
    case PassportPlusGuest => "Passport + Guest"
  }

  /** Different levels of an attribute are shown as different strings, so
      the levels keep every distinction the bank's display strings make. */
  lemma LabelsDistinguishLevels()
    ensures forall a, b :: ClassCountLabel(a) == ClassCountLabel(b) ==> a == b
    ensures forall a, b :: PriceLabel(a) == PriceLabel(b) ==> a == b
    ensures forall a, b :: CommitmentLabel(a) == CommitmentLabel(b) ==> a == b
    ensures forall a, b :: RecoveryLabel(a) == RecoveryLabel(b) ==> a == b
    ensures forall a, b :: PerkLabel(a) == PerkLabel(b) ==> a == b
  {
  }

  /** The entry at index `k` of `FIXED_QUESTIONS`. */
  function BankEntry(k: nat): (q: QuestionSet)
    requires k < 8
    ensures q.questionId == k + 1
  {
    if k == 0 then
      QuestionSet(1,
        Bundle(Classes4, Price139, MonthToMonth, NoRecovery, StandardBooking),
        Bundle(Classes4, Price199, Months3, TowelService, PriorityBooking))
    else if k == 1 then
      QuestionSet(2,
        Bundle(Classes8, Price199, MonthToMonth, RecoveryPlusPT, PassportAllLocs),
        Bundle(Unlimited, Price269, Months3, RecoveryPlusPT, StandardBooking))
    else if k == 2 then
      QuestionSet(3,
        Bundle(Unlimited, Price199, Months6, NoRecovery, PassportPlusGuest),
        Bundle(Classes12, Price349, Months3, NoRecovery, PassportAllLocs))
    else if k == 3 then
      QuestionSet(4,
        Bundle(Classes12, Price139, Months6, RecoveryPlusPT, PriorityBooking),
        Bundle(Classes12, Price199, Months12, RecoveryLounge, StandardBooking))
    else if k == 4 then
      QuestionSet(5,
        Bundle(Classes4, Price269, Months6, RecoveryLounge, PassportAllLocs),
        Bundle(Unlimited, Price349, MonthToMonth, RecoveryLounge, PriorityBooking))
    else if k == 5 then
      QuestionSet(6,
        Bundle(Classes8, Price139, Months3, RecoveryLounge, PassportPlusGuest),
        Bundle(Classes8, Price349, Months6, TowelService, StandardBooking))
    else if k == 6 then
      QuestionSet(7,
        Bundle(Classes12, Price269, MonthToMonth, TowelService, PassportPlusGuest),
        Bundle(Unlimited, Price139, Months12, TowelService, PassportAllLocs))
    else
      QuestionSet(8,
        Bundle(Classes4, Price349, Months12, RecoveryPlusPT, PassportPlusGuest),
        Bundle(Classes8, Price269, Months12, NoRecovery, PriorityBooking))
  }

  /** `FIXED_QUESTIONS`: the eight sets in bank order. */
  const FixedQuestions: seq<QuestionSet> := seq(8, k requires 0 <= k < 8 => BankEntry(k))

  /** The number of questions in one session (`TOTAL_QUESTIONS`). */
  const TotalQuestions: nat := |FixedQuestions|

  /** The identifiers of a sequence of question sets, in order. */
  function Ids(q: seq<QuestionSet>): (r: seq<int>)
    ensures |r| == |q|
  {
    seq(|q|, k requires 0 <= k < |q| => q[k].questionId)
  }

  /** The bank holds eight sets whose identifiers are 1 to 8 in order, so both
      the identifiers and the sets themselves are pairwise distinct. */
  lemma BankIdentifiers()
    ensures TotalQuestions == 8
    ensures Ids(FixedQuestions) == [1, 2, 3, 4, 5, 6, 7, 8]
    ensures Distinct(Ids(FixedQuestions))
    ensures Distinct(FixedQuestions)
  {
    var ids := Ids(FixedQuestions);
    assert forall k :: 0 <= k < 8 ==> ids[k] == k + 1;
    assert ids == [1, 2, 3, 4, 5, 6, 7, 8];
  }

  /** Removing the set at `i` removes exactly its identifier from the identifiers. */
  lemma IdsRemoveAt(r: seq<QuestionSet>, i: nat)
    requires i < |r|
    ensures multiset(Ids(r)) == multiset(Ids(r[..i] + r[i + 1..])) + multiset{r[i].questionId}
  {
    var ids := Ids(r);
    assert Ids(r[..i] + r[i + 1..]) == ids[..i] + ids[i + 1..];
    RemoveAt(ids, i);
    assert ids[i] in multiset(ids);
  }

  lemma IdsRemoveMatching(q: seq<QuestionSet>, r: seq<QuestionSet>, i: nat)
    requires q != [] && i < |r| && r[i] == q[0]
    requires multiset(Ids(q[1..])) == multiset(Ids(r[..i] + r[i + 1..]))
    ensures multiset(Ids(q)) == multiset(Ids(r))
  {
    IdsRemoveAt(r, i);
    IdsRemoveAt(q, 0);
    assert q[..0] + q[1..] == q[1..];
  }

  /** Reordering question sets reorders their identifiers the same way:
      a permutation of the sets yields a permutation of the identifiers. */
  lemma {:induction false} IdsOfPermutation(q: seq<QuestionSet>, r: seq<QuestionSet>)
    requires multiset(q) == multiset(r)
    ensures multiset(Ids(q)) == multiset(Ids(r))
    decreases |q|
  {
    if q == [] {
      assert |r| == |multiset(r)| == 0;
    } else {
      assert q[0] in multiset(r);
      var i :| 0 <= i < |r| && r[i] == q[0];
      RemoveMatching(q, r, i);
      IdsOfPermutation(q[1..], r[..i] + r[i + 1..]);
      IdsRemoveMatching(q, r, i);
    }
  }

  /** Any arrangement of the bank has eight sets whose identifiers are 1 to 8
      in some order. */
  lemma BankArrangement(q: seq<QuestionSet>)
    requires multiset(q) == multiset(FixedQuestions)
    ensures |q| == TotalQuestions == 8
    ensures multiset(Ids(q)) == multiset{1, 2, 3, 4, 5, 6, 7, 8}
  {
    BankIdentifiers();
    assert |q| == |multiset(q)| == |multiset(FixedQuestions)|;
    IdsOfPermutation(q, FixedQuestions);
    assert multiset([1, 2, 3, 4, 5, 6, 7, 8]) == multiset{1, 2, 3, 4, 5, 6, 7, 8};
  }
}
