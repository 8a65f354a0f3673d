/** The onboarding-document synthesizer `generateClientJson` of
    packages/api/src/services/newClientJsonGenerator.ts: a wizard request
    (people, and accounts that name people by id) becomes a client document in
    which every participant carries its roles, every account its holders as
    positions, and every distinct holder pair one client group. */
module ClientJson {
  import opened Wrappers
  import opened Bytes
  import OrderedSet
  import Decimal
  import Utf8
  import Base64
  import Sequences

  // ---------------------------------------------------------------- input

  datatype LoginInformation = LoginInformation(username: Option<string>, password: Option<string>)

  /** One person of the request; `id` only serves to cross-reference accounts,
      `address` is not used by the synthesizer. */
  datatype Participant = Participant(
    id: string, title: string, firstName: string, lastName: string, gender: string, address: string)

  datatype Account = Account(
    accountType: string,
    primaryAccountHolder: string,
    secondaryAccountHolder: Option<string>,
    beneficiary: Option<string>)

  datatype WizardRequest = WizardRequest(
    loginInformation: LoginInformation,
    autoApprove: bool,
    participants: seq<Participant>,
    accounts: seq<Account>,
    rrCode: string)

  // --------------------------------------------------------------- output

  datatype Role = AccountHolder | Beneficiary

  /** The text a role has in the document. */
  function RoleLabel(r: Role): (text: string)
    ensures text == "Account Holder" <==> r == AccountHolder
    ensures text == "Beneficiary" <==> r == Beneficiary
  {
    match r
    case AccountHolder => "Account Holder"
    case Beneficiary => "Beneficiary"
  }

  datatype ClientParticipant = ClientParticipant(
    id: string, index: nat, title: string, firstName: string, lastName: string, gender: string,
    role: seq<Role>)

  /** A holder or beneficiary field is `None` when the source leaves it off the object. */
  datatype ClientAccount = ClientAccount(
    accountType: string,
    primaryAccountHolder: Option<nat>,
    secondaryAccountHolder: Option<nat>,
    beneficiary: Option<nat>)

  datatype AccountHolders = AccountHolders(primaryAccountHolder: nat, secondaryAccountHolder: Option<nat>)

  datatype ClientGroup = ClientGroup(accountHolders: AccountHolders)

  datatype ClientLogin = ClientLogin(username: string, password: string)

  datatype Household = Household(householdName: string, rrCode: string)

  datatype ClientDocument = ClientDocument(
    loginInformation: ClientLogin,
    autoApprove: bool,
    household: Household,
    participants: seq<ClientParticipant>,
    accounts: seq<ClientAccount>,
    clientGroups: seq<ClientGroup>)

  /** `participants[0].firstName` throws when there is no first participant. */
  datatype Error = NoFirstParticipant

  // ---------------------------------------------------- id resolution

  /** `k` is the leftmost position whose participant has id `id`. */
  ghost predicate LeftmostMatch(ps: seq<Participant>, id: string, k: nat) {
    k < |ps| && ps[k].id == id && forall j :: 0 <= j < k ==> ps[j].id != id
  }

  /** `r` is what resolving the reference `ref` must give: the leftmost match,
      or nothing when no participant has that id or the reference is absent. */
  ghost predicate Resolves(ps: seq<Participant>, ref: Option<string>, r: Option<nat>) {
    match r
    case Some(k) => ref.Some? && LeftmostMatch(ps, ref.value, k)
    case None => forall j :: 0 <= j < |ps| ==> Some(ps[j].id) != ref
  }

  /** `participants.findIndex(p => p.id === ref)`, `-1` being `None`. An absent
      reference (`undefined`) equals no string id. */
  function FindIndex(ps: seq<Participant>, ref: Option<string>): (r: Option<nat>)
    ensures Resolves(ps, ref, r)
  {
    if ps == [] then None
    else if Some(ps[0].id) == ref then Some(0)
    else match FindIndex(ps[1..], ref)
      case None => None
      case Some(k) => Some(k + 1)
  }

  /** Only one result meets `Resolves`, so it pins resolution down completely. */
  lemma ResolvesUnique(ps: seq<Participant>, ref: Option<string>, r1: Option<nat>, r2: Option<nat>)
    requires Resolves(ps, ref, r1) && Resolves(ps, ref, r2)
    ensures r1 == r2
  {
  }

  function PrimaryIndex(ps: seq<Participant>, a: Account): Option<nat> {
    FindIndex(ps, Some(a.primaryAccountHolder))
  }

  function SecondaryIndex(ps: seq<Participant>, a: Account): Option<nat> {
    FindIndex(ps, a.secondaryAccountHolder)
  }

  function BeneficiaryIndex(ps: seq<Participant>, a: Account): Option<nat> {
    FindIndex(ps, a.beneficiary)
  }

  // ------------------------------------------------------- roles

  /** Account `a` names participant `i` as its primary or secondary holder. */
  ghost predicate HoldsAccount(ps: seq<Participant>, a: Account, i: nat) {
    PrimaryIndex(ps, a) == Some(i) || SecondaryIndex(ps, a) == Some(i)
  }

  /** Account `a` names participant `i` as its beneficiary. */
  ghost predicate BenefitsFrom(ps: seq<Participant>, a: Account, i: nat) {
    BeneficiaryIndex(ps, a) == Some(i)
  }

  /** The roles account `a` adds to participant `i`, in the order the source
      adds them: primary holder, secondary holder, beneficiary. */
  function Credits(ps: seq<Participant>, a: Account, i: nat): (c: seq<Role>)
    ensures AccountHolder in c <==> HoldsAccount(ps, a, i)
    ensures Beneficiary in c <==> BenefitsFrom(ps, a, i)
  {
    (if PrimaryIndex(ps, a) == Some(i) then [AccountHolder] else [])
    + (if SecondaryIndex(ps, a) == Some(i) then [AccountHolder] else [])
    + (if BeneficiaryIndex(ps, a) == Some(i) then [Beneficiary] else [])
  }

  /** Every role addition aimed at participant `i` while scanning `accts` in order. */
  function RoleEvents(ps: seq<Participant>, accts: seq<Account>, i: nat): seq<Role>
  {
    if accts == [] then []
    else RoleEvents(ps, accts[..|accts| - 1], i) + Credits(ps, accts[|accts| - 1], i)
  }

  lemma RoleEventsSnoc(ps: seq<Participant>, accts: seq<Account>, a: Account, i: nat)
    ensures RoleEvents(ps, accts + [a], i) == RoleEvents(ps, accts, i) + Credits(ps, a, i)
  {
    assert (accts + [a])[..|accts|] == accts;
  }

  /** One account's credits, in the three steps the source takes them. */
  lemma RoleEventsStep(ps: seq<Participant>, accts: seq<Account>, a: Account, i: nat)
    ensures RoleEvents(ps, accts + [a], i) ==
      RoleEvents(ps, accts, i)
      + (if PrimaryIndex(ps, a) == Some(i) then [AccountHolder] else [])
      + (if SecondaryIndex(ps, a) == Some(i) then [AccountHolder] else [])
      + (if BeneficiaryIndex(ps, a) == Some(i) then [Beneficiary] else [])
  {
    RoleEventsSnoc(ps, accts, a, i);
    Sequences.AppendThree(RoleEvents(ps, accts, i),
      if PrimaryIndex(ps, a) == Some(i) then [AccountHolder] else [],
      if SecondaryIndex(ps, a) == Some(i) then [AccountHolder] else [],
      if BeneficiaryIndex(ps, a) == Some(i) then [Beneficiary] else []);
  }

  /** A role is among the events exactly when some account credits it. */
  lemma {:induction false} RoleEventsMembership(ps: seq<Participant>, accts: seq<Account>, i: nat, r: Role)
    ensures r in RoleEvents(ps, accts, i) <==> exists k :: 0 <= k < |accts| && r in Credits(ps, accts[k], i)
  {
    if accts != [] {
      var n := |accts| - 1;
      var init := accts[..n];
      RoleEventsMembership(ps, init, i, r);
      var last := Credits(ps, accts[n], i);
      assert RoleEvents(ps, accts, i) == RoleEvents(ps, init, i) + last;
      if r in RoleEvents(ps, accts, i) {
        if r in RoleEvents(ps, init, i) {
          var k :| 0 <= k < |init| && r in Credits(ps, init[k], i);
          assert accts[k] == init[k];
        } else {
          assert r in last;
        }
      } else {
        assert r !in RoleEvents(ps, init, i) && r !in last;
        forall k | 0 <= k < |accts|
          ensures r !in Credits(ps, accts[k], i)
        {
          if k < n {
            assert init[k] == accts[k];
            assert r !in Credits(ps, init[k], i);
          } else {
            assert k == n;
            assert r !in Credits(ps, accts[n], i);
          }
        }
      }
    }
  }

  /** The role list of participant `i`: duplicate-free, ordered by first
      discovery in the scan, holding "Account Holder" exactly when some account
      names `i` as a holder and "Beneficiary" exactly when some account names
      `i` as beneficiary; a participant no account names has no role. */
  lemma RolesCorrect(ps: seq<Participant>, accts: seq<Account>, i: nat)
    ensures var roles := OrderedSet.FromSeq(RoleEvents(ps, accts, i));
      && OrderedSet.NoDup(roles)
      && (AccountHolder in roles <==> exists k :: 0 <= k < |accts| && HoldsAccount(ps, accts[k], i))
      && (Beneficiary in roles <==> exists k :: 0 <= k < |accts| && BenefitsFrom(ps, accts[k], i))
      && (roles == [] <==> forall k :: 0 <= k < |accts| ==> !HoldsAccount(ps, accts[k], i) && !BenefitsFrom(ps, accts[k], i))
      && OrderedSet.FirstSeenOrder(roles, RoleEvents(ps, accts, i))
  {
    var roles := OrderedSet.FromSeq(RoleEvents(ps, accts, i));
    OrderedSet.FromSeqCharacterization(RoleEvents(ps, accts, i));
    RoleListed(ps, accts, i, AccountHolder);
    RoleListed(ps, accts, i, Beneficiary);
    if roles != [] {
      assert roles[0] == AccountHolder || roles[0] == Beneficiary;
    }
  }

  /** Role `r` is in the role list exactly when some account credits it. */
  lemma RoleListed(ps: seq<Participant>, accts: seq<Account>, i: nat, r: Role)
    ensures r in OrderedSet.FromSeq(RoleEvents(ps, accts, i)) <==>
      exists k :: 0 <= k < |accts| && r in Credits(ps, accts[k], i)
  {
    OrderedSet.FromSeqCharacterization(RoleEvents(ps, accts, i));
    RoleEventsMembership(ps, accts, i, r);
  }

  /** `participantRoles[target].add(role)` when the index resolved: the role
      set of `target` gains `role`, every other set stays as it was. */
  method Credit(sets: array<seq<Role>>, ghost events: seq<seq<Role>>, target: Option<nat>, role: Role)
    returns (ghost events': seq<seq<Role>>)
    requires sets.Length == |events|
    requires forall i :: 0 <= i < |events| ==> sets[i] == OrderedSet.FromSeq(events[i])
    requires target.Some? ==> target.value < sets.Length
    modifies sets
    ensures |events'| == |events|
    ensures forall i :: 0 <= i < |events| ==>
              events'[i] == events[i] + (if target == Some(i) then [role] else [])
    ensures forall i :: 0 <= i < |events| ==> sets[i] == OrderedSet.FromSeq(events'[i])
  {
    events' := events;
    if target.Some? {
      var t := target.value;
      OrderedSet.FromSeqSnoc(events[t], role);
      sets[t] := OrderedSet.Insert(sets[t], role);
      events' := events[t := events[t] + [role]];
    }
  }

  /** Role accumulation (newClientJsonGenerator.ts:28-45): one insertion-ordered
      role set per participant, updated account by account. */
  method AccumulateRoles(ps: seq<Participant>, accounts: seq<Account>) returns (roles: seq<seq<Role>>)
    ensures |roles| == |ps|
    ensures forall i :: 0 <= i < |ps| ==> roles[i] == OrderedSet.FromSeq(RoleEvents(ps, accounts, i))
  {
    var sets := new seq<Role>[|ps|](_ => []);
    ghost var events: seq<seq<Role>> := seq(|ps|, _ => []);
    for k := 0 to |accounts|
      invariant |events| == sets.Length == |ps|
      invariant forall i :: 0 <= i < |ps| ==> events[i] == RoleEvents(ps, accounts[..k], i)
      invariant forall i :: 0 <= i < |ps| ==> sets[i] == OrderedSet.FromSeq(events[i])
    {
      var a := accounts[k];
      var primary := FindIndex(ps, Some(a.primaryAccountHolder));
      var secondary := FindIndex(ps, a.secondaryAccountHolder);
      var beneficiary := FindIndex(ps, a.beneficiary);
      ghost var e0 := events;
      var e1 := Credit(sets, e0, primary, AccountHolder);
      var e2 := Credit(sets, e1, secondary, AccountHolder);
      events := Credit(sets, e2, beneficiary, Beneficiary);
      Sequences.PrefixSnoc(accounts, k);
      forall i | 0 <= i < |ps|
        ensures events[i] == RoleEvents(ps, accounts[..k + 1], i)
      {
        RoleEventsStep(ps, accounts[..k], a, i);
      }
    }
    Sequences.PrefixAll(accounts);
    roles := sets[..];
  }

  // ------------------------------------------ holder combinations

  /** A holder combination: a primary position and, when it resolved, a secondary one. */
  datatype Combo = Combo(primary: nat, secondary: Option<nat>)

  /** The combination account `a` contributes; none when its primary does not resolve. */
  function ComboOf(ps: seq<Participant>, a: Account): (c: Option<Combo>)
    ensures c.Some? <==> PrimaryIndex(ps, a).Some?
    ensures c.Some? ==> c.value.primary < |ps| && Some(ps[c.value.primary].id) == Some(a.primaryAccountHolder)
    ensures c.Some? ==> Resolves(ps, a.secondaryAccountHolder, c.value.secondary)
  {
    match PrimaryIndex(ps, a)
    case None => None
    case Some(p) => Some(Combo(p, SecondaryIndex(ps, a)))
  }

  /** The combinations added to the set while scanning `accts` in order. */
  function ComboEvents(ps: seq<Participant>, accts: seq<Account>): (evs: seq<Combo>)
    ensures |evs| <= |accts|
  {
    if accts == [] then []
    else
      var init := ComboEvents(ps, accts[..|accts| - 1]);
      match ComboOf(ps, accts[|accts| - 1])
      case None => init
      case Some(c) => init + [c]
  }

  lemma ComboEventsSnoc(ps: seq<Participant>, accts: seq<Account>, a: Account)
    ensures ComboEvents(ps, accts + [a]) ==
      ComboEvents(ps, accts) + (if ComboOf(ps, a).Some? then [ComboOf(ps, a).value] else [])
  {
    assert (accts + [a])[..|accts|] == accts;
  }

  lemma {:induction false} ComboEventsMembership(ps: seq<Participant>, accts: seq<Account>)
    ensures forall c :: c in ComboEvents(ps, accts) <==>
              exists k :: 0 <= k < |accts| && ComboOf(ps, accts[k]) == Some(c)
  {
    if accts != [] {
      var init, last := accts[..|accts| - 1], accts[|accts| - 1];
      ComboEventsMembership(ps, init);
      assert forall k :: 0 <= k < |init| ==> init[k] == accts[k];
      assert ComboOf(ps, accts[|accts| - 1]) == ComboOf(ps, last);
    }
  }

  /** Combination collection (newClientJsonGenerator.ts:48-59): the insertion-
      ordered set of the accounts' holder combinations. */
  method CollectHolderCombinations(ps: seq<Participant>, accounts: seq<Account>) returns (combos: seq<Combo>)
    ensures combos == OrderedSet.FromSeq(ComboEvents(ps, accounts))
  {
    combos := [];
    for k := 0 to |accounts|
      invariant combos == OrderedSet.FromSeq(ComboEvents(ps, accounts[..k]))
    {
      var a := accounts[k];
      Sequences.PrefixSnoc(accounts, k);
      ComboEventsSnoc(ps, accounts[..k], a);
      var primary := FindIndex(ps, Some(a.primaryAccountHolder));
      var secondary := FindIndex(ps, a.secondaryAccountHolder);
      if primary.Some? {
        OrderedSet.FromSeqSnoc(ComboEvents(ps, accounts[..k]), Combo(primary.value, secondary));
        combos := OrderedSet.Insert(combos, Combo(primary.value, secondary));
      }
    }
    Sequences.PrefixAll(accounts);
  }

  /** The collected combinations are exactly those of the accounts whose
      primary resolves, each once, in first-seen order, no more than there are
      accounts, and every position in them is a valid participant position. */
  lemma HolderCombinationsCorrect(ps: seq<Participant>, accts: seq<Account>)
    ensures var cs := OrderedSet.FromSeq(ComboEvents(ps, accts));
      && OrderedSet.NoDup(cs)
      && |cs| <= |accts|
      && (forall c :: c in cs <==> exists k :: 0 <= k < |accts| && ComboOf(ps, accts[k]) == Some(c))
      && (forall c :: c in cs ==> c.primary < |ps| && (c.secondary.Some? ==> c.secondary.value < |ps|))
      && OrderedSet.FirstSeenOrder(cs, ComboEvents(ps, accts))
  {
    OrderedSet.FromSeqCharacterization(ComboEvents(ps, accts));
    ComboEventsMembership(ps, accts);
  }

  // ------------------------------------ string keys of combinations

  /** The key the source stores in its `Set`: `${primary}-${secondary}`, or
      `${primary}` when the secondary did not resolve. */
  function ComboKey(c: Combo): (key: string)
    ensures |key| > 0
  {
    match c.secondary
    case Some(s) => Decimal.Digits(c.primary) + "-" + Decimal.Digits(s)
    case None => Decimal.Digits(c.primary)
  }

  /** `s.split(sep)` for a one-character separator. */
  function Split(s: string, sep: char): (parts: seq<string>)
    ensures |parts| >= 1
  {
    if s == [] then [[]]
    else
      var rest := Split(s[1..], sep);
      if s[0] == sep then [[]] + rest else [[s[0]] + rest[0]] + rest[1..]
  }

  /** `const [primary, secondary] = key.split('-').map(Number)`: a missing second
      part is `undefined`, further parts are ignored, and a part that is not a
      numeral makes the key unreadable here. */
  function ParseComboKey(key: string): Option<Combo>
  {
    var parts := Split(key, '-');
    match Decimal.Number(parts[0])
    case None => None
    case Some(p) =>
      if |parts| == 1 then Some(Combo(p, None))
      else match Decimal.Number(parts[1])
        case None => None
        case Some(q) => Some(Combo(p, Some(q)))
  }

  lemma {:induction false} SplitWithoutSeparator(a: string, sep: char)
    requires sep !in a
    ensures Split(a, sep) == [a]
  {
    if a != [] {
      SplitWithoutSeparator(a[1..], sep);
      assert [a[0]] + a[1..] == a;
    }
  }

  lemma {:induction false} SplitAtSeparator(a: string, sep: char, b: string)
    requires sep !in a
    ensures Split(a + [sep] + b, sep) == [a] + Split(b, sep)
  {
    if a == [] {
      assert a + [sep] + b == [sep] + b;
      assert ([sep] + b)[1..] == b;
    } else {
      var s := a + [sep] + b;
      assert s[1..] == a[1..] + [sep] + b;
      SplitAtSeparator(a[1..], sep, b);
      assert [a[0]] + a[1..] == a;
    }
  }

  lemma DigitsHaveNoDash(n: nat)
    ensures '-' !in Decimal.Digits(n)
  {
  }

  /** Reading a key back with `split('-').map(Number)` gives the combination it
      was made from. */
  lemma ParseComboKeyRoundTrip(c: Combo)
    ensures ParseComboKey(ComboKey(c)) == Some(c)
  {
    var p := Decimal.Digits(c.primary);
    DigitsHaveNoDash(c.primary);
    Decimal.ValueOfDigits(c.primary);
    match c.secondary
    case None =>
      SplitWithoutSeparator(p, '-');
    case Some(q) =>
      var t := Decimal.Digits(q);
      DigitsHaveNoDash(q);
      Decimal.ValueOfDigits(q);
      SplitAtSeparator(p, '-', t);
      SplitWithoutSeparator(t, '-');
      assert ComboKey(c) == p + ['-'] + t;
  }

  /** Distinct combinations have distinct keys, so the source's string-keyed
      set merges exactly the accounts a pair-keyed set merges. */
  lemma ComboKeyInjective(c1: Combo, c2: Combo)
    requires ComboKey(c1) == ComboKey(c2)
    ensures c1 == c2
  {
    ParseComboKeyRoundTrip(c1);
    ParseComboKeyRoundTrip(c2);
  }

  function Keys(cs: seq<Combo>): (keys: seq<string>)
    ensures |keys| == |cs|
  {
    seq(|cs|, k requires 0 <= k < |cs| => ComboKey(cs[k]))
  }

  lemma KeysSnoc(s: seq<Combo>, c: Combo)
    ensures Keys(s + [c]) == Keys(s) + [ComboKey(c)]
  {
  }

  lemma KeysInsert(s: seq<Combo>, c: Combo)
    ensures Keys(OrderedSet.Insert(s, c)) == OrderedSet.Insert(Keys(s), ComboKey(c))
  {
    if ComboKey(c) in Keys(s) {
      var k :| 0 <= k < |s| && Keys(s)[k] == ComboKey(c);
      ComboKeyInjective(s[k], c);
    } else {
      KeysSnoc(s, c);
    }
  }

  /** Collecting the string keys of the combinations yields, key for key, the
      keys of the collected combinations. */
  lemma {:induction false} KeysFromSeq(xs: seq<Combo>)
    ensures OrderedSet.FromSeq(Keys(xs)) == Keys(OrderedSet.FromSeq(xs))
  {
    if xs != [] {
      var init, x := xs[..|xs| - 1], xs[|xs| - 1];
      Sequences.SplitLast(xs);
      KeysSnoc(init, x);
      KeysFromSeq(init);
      OrderedSet.FromSeqSnoc(Keys(init), ComboKey(x));
      OrderedSet.FromSeqSnoc(init, x);
      KeysInsert(OrderedSet.FromSeq(init), x);
    }
  }

  /** The source's string-keyed set, decoded key by key as group
      materialization does, is the pair-keyed set of this model. */
  lemma StringKeyedSetAgrees(xs: seq<Combo>)
    ensures |OrderedSet.FromSeq(Keys(xs))| == |OrderedSet.FromSeq(xs)|
    ensures forall k :: 0 <= k < |OrderedSet.FromSeq(xs)| ==>
              ParseComboKey(OrderedSet.FromSeq(Keys(xs))[k]) == Some(OrderedSet.FromSeq(xs)[k])
  {
    KeysFromSeq(xs);
    forall k | 0 <= k < |OrderedSet.FromSeq(xs)|
      ensures ParseComboKey(OrderedSet.FromSeq(Keys(xs))[k]) == Some(OrderedSet.FromSeq(xs)[k])
    {
      ParseComboKeyRoundTrip(OrderedSet.FromSeq(xs)[k]);
    }
  }

  // ---------------------------------------------------- materialization

  /** Group materialization (newClientJsonGenerator.ts:62-76): one group per
      combination, the secondary holder left off when there is none. */
  function MaterializeGroups(cs: seq<Combo>): (groups: seq<ClientGroup>)
    ensures |groups| == |cs|
  {
    seq(|cs|, k requires 0 <= k < |cs| => ClientGroup(AccountHolders(cs[k].primary, cs[k].secondary)))
  }

  /** `P` followed by the 1-based position, zero-padded to three digits. */
  function ParticipantId(i: nat): (id: string)
    ensures |id| >= 4 && id[0] == 'P'
    ensures i < 999 ==> |id| == 4
  {
    Decimal.Numbered("P", i + 1)
  }

  /** The first participant is `P001`. */
  lemma FirstParticipantId()
    ensures ParticipantId(0) == "P001"
  {
    assert Decimal.Digits(1) == "1";
    assert Decimal.PadStart("1", 3, '0') == "001";
  }

  /** Different positions get different ids. */
  lemma ParticipantIdInjective(i: nat, j: nat)
    requires ParticipantId(i) == ParticipantId(j)
    ensures i == j
  {
    Decimal.NumberedInjective("P", i + 1, j + 1);
  }

  /** Participant materialization (newClientJsonGenerator.ts:90-98). */
  function MaterializeParticipants(ps: seq<Participant>, roles: seq<seq<Role>>): (out: seq<ClientParticipant>)
    requires |roles| == |ps|
    ensures |out| == |ps|
  {
    seq(|ps|, i requires 0 <= i < |ps| =>
      ClientParticipant(ParticipantId(i), i, ps[i].title, ps[i].firstName, ps[i].lastName, ps[i].gender, roles[i]))
  }

  /** Account materialization (newClientJsonGenerator.ts:99-120): the type, and
      each reference field only when it resolves. */
  method BuildAccount(ps: seq<Participant>, a: Account) returns (obj: ClientAccount)
    ensures obj.accountType == a.accountType
    ensures Resolves(ps, Some(a.primaryAccountHolder), obj.primaryAccountHolder)
    ensures Resolves(ps, a.secondaryAccountHolder, obj.secondaryAccountHolder)
    ensures Resolves(ps, a.beneficiary, obj.beneficiary)
  {
    obj := ClientAccount(a.accountType, None, None, None);
    var primary := FindIndex(ps, Some(a.primaryAccountHolder));
    if primary.Some? {
      obj := obj.(primaryAccountHolder := primary);
    }
    var secondary := FindIndex(ps, a.secondaryAccountHolder);
    if secondary.Some? {
      obj := obj.(secondaryAccountHolder := secondary);
    }
    var beneficiary := FindIndex(ps, a.beneficiary);
    if beneficiary.Some? {
      obj := obj.(beneficiary := beneficiary);
    }
  }

  // ----------------------------------------------------------- envelope

  /** `username || ''`. */
  function Username(username: Option<string>): (r: string)
    ensures username.Some? ==> r == username.value
    ensures username.None? ==> r == ""
  {
    match username
    case Some(u) => u
    case None => ""
  }

  /** `password ? Buffer.from(password).toString('base64') : ''`: the Base64 text
      of the UTF-8 bytes, empty for an absent or empty password. */
  function EncodePassword(password: Option<string>): string
  {
    if password.None? || password.value == "" then ""
    else Base64.Encode(Utf8.Encode(password.value))
  }

  /** The encoded password is empty exactly when there is no password. */
  lemma PasswordEmpty(password: Option<string>)
    ensures EncodePassword(password) == "" <==> password.None? || password.value == ""
  {
    if password.Some? && password.value != "" {
      var bytes := Utf8.Encode(password.value);
      assert |Base64.Encode(bytes)| == 4 * ((|bytes| + 2) / 3);
    }
  }

  /** The encoded password is a whole number of four-character groups. */
  lemma PasswordLength(password: Option<string>)
    ensures |EncodePassword(password)| % 4 == 0
  {
    if password.Some? && password.value != "" {
      var groups := (|Utf8.Encode(password.value)| + 2) / 3;
      assert |EncodePassword(password)| == 4 * groups;
      assert (4 * groups) % 4 == 0;
    }
  }

  /** Decoding the encoded password gives the password back: the encoding
      hides nothing. */
  lemma PasswordRecoverable(password: Option<string>)
    requires password.Some? && password.value != ""
    ensures Base64.Decode(EncodePassword(password)) == Some(Utf8.Encode(password.value))
    ensures Utf8.Decode(Utf8.Encode(password.value)) == Some(password.value)
  {
    Base64.DecodeEncode(Utf8.Encode(password.value));
    Utf8.DecodeEncode(password.value);
  }

  function HouseholdName(first: Participant): string {
    first.firstName + " " + first.lastName + " Household"
  }

  // ------------------------------------------------------ the document

  /** Participant `i` of the document is built from input participant `i`. */
  ghost predicate ParticipantMaterialized(ps: seq<Participant>, accts: seq<Account>, i: nat, out: ClientParticipant)
    requires i < |ps|
  {
    out == ClientParticipant(ParticipantId(i), i, ps[i].title, ps[i].firstName, ps[i].lastName, ps[i].gender,
                             OrderedSet.FromSeq(RoleEvents(ps, accts, i)))
  }

  /** An account of the document keeps the type and holds the resolutions of the references. */
  ghost predicate AccountMaterialized(ps: seq<Participant>, a: Account, out: ClientAccount) {
    && out.accountType == a.accountType
    && Resolves(ps, Some(a.primaryAccountHolder), out.primaryAccountHolder)
    && Resolves(ps, a.secondaryAccountHolder, out.secondaryAccountHolder)
    && Resolves(ps, a.beneficiary, out.beneficiary)
  }

  /** The document's participant list is built from `ps`, position by position. */
  ghost predicate ParticipantsMaterialized(ps: seq<Participant>, accts: seq<Account>, outs: seq<ClientParticipant>) {
    && |outs| == |ps|
    && forall i :: 0 <= i < |ps| ==> ParticipantMaterialized(ps, accts, i, outs[i])
  }

  /** The document's account list is built from `accts`, position by position. */
  ghost predicate AccountsMaterialized(ps: seq<Participant>, accts: seq<Account>, outs: seq<ClientAccount>) {
    && |outs| == |accts|
    && forall k :: 0 <= k < |accts| ==> AccountMaterialized(ps, accts[k], outs[k])
  }

  /** The client groups: one per distinct holder combination, in first-seen order. */
  function ClientGroups(ps: seq<Participant>, accts: seq<Account>): (groups: seq<ClientGroup>)
    ensures |groups| <= |accts|
  {
    OrderedSet.FromSeqCharacterization(ComboEvents(ps, accts));
    MaterializeGroups(OrderedSet.FromSeq(ComboEvents(ps, accts)))
  }

  /** `doc` is the document `generateClientJson` builds for `req`. */
  ghost predicate Synthesizes(req: WizardRequest, doc: ClientDocument) {
    var ps, accts := req.participants, req.accounts;
    && |ps| > 0
    && doc.loginInformation == ClientLogin(Username(req.loginInformation.username),
                                           EncodePassword(req.loginInformation.password))
    && doc.autoApprove == req.autoApprove
    && doc.household == Household(HouseholdName(ps[0]), req.rrCode)
    && ParticipantsMaterialized(ps, accts, doc.participants)
    && AccountsMaterialized(ps, accts, doc.accounts)
    && doc.clientGroups == ClientGroups(ps, accts)
  }

  /** `generateClientJson` (newClientJsonGenerator.ts:24-125). With no
      participants the household name cannot be formed and the call fails. */
  method GenerateClientJson(req: WizardRequest) returns (result: Result<ClientDocument, Error>)
    ensures result.Failure? <==> req.participants == []
    ensures result.Success? ==> Synthesizes(req, result.value)
  {
    var ps, accounts := req.participants, req.accounts;
    var roles := AccumulateRoles(ps, accounts);
    var combos := CollectHolderCombinations(ps, accounts);
    var groups := MaterializeGroups(combos);
    if |ps| == 0 {
      return Failure(NoFirstParticipant);
    }
    var login := ClientLogin(Username(req.loginInformation.username),
                             EncodePassword(req.loginInformation.password));
    var household := Household(HouseholdName(ps[0]), req.rrCode);
    var outParticipants := MaterializeParticipants(ps, roles);
    var outAccounts: seq<ClientAccount> := [];
    for k := 0 to |accounts|
      invariant |outAccounts| == k
      invariant forall j :: 0 <= j < k ==> AccountMaterialized(ps, accounts[j], outAccounts[j])
    {
      var obj := BuildAccount(ps, accounts[k]);
      outAccounts := outAccounts + [obj];
    }
    result := Success(ClientDocument(login, req.autoApprove, household, outParticipants, outAccounts, groups));
  }

  // ------------------------------------------ properties of the document

  /** An optional position that, when present, points into a sequence of length `n`. */
  predicate IndexBelow(r: Option<nat>, n: nat) {
    r.Some? ==> r.value < n
  }

  /** No participant has the id `ref` refers to (or `ref` is absent). */
  predicate Unmatched(ps: seq<Participant>, ref: Option<string>) {
    forall j :: 0 <= j < |ps| ==> Some(ps[j].id) != ref
  }

  /** Every position the document mentions, in its accounts and in its
      groups, is a valid 0-based position in its participant list, and a
      beneficiary whose id matches no participant is left off its account. */
  lemma DocumentIndicesValid(req: WizardRequest, doc: ClientDocument)
    requires Synthesizes(req, doc)
    ensures forall k :: 0 <= k < |doc.accounts| ==>
              && IndexBelow(doc.accounts[k].primaryAccountHolder, |doc.participants|)
              && IndexBelow(doc.accounts[k].secondaryAccountHolder, |doc.participants|)
              && IndexBelow(doc.accounts[k].beneficiary, |doc.participants|)
    ensures forall k :: 0 <= k < |doc.accounts| && Unmatched(req.participants, req.accounts[k].beneficiary) ==>
              doc.accounts[k].beneficiary.None?
    ensures forall g :: g in doc.clientGroups ==>
              && g.accountHolders.primaryAccountHolder < |doc.participants|
              && IndexBelow(g.accountHolders.secondaryAccountHolder, |doc.participants|)
  {
    GroupIndicesValid(req.participants, req.accounts);
  }

  /** Every position a client group mentions is a valid participant position. */
  lemma GroupIndicesValid(ps: seq<Participant>, accts: seq<Account>)
    ensures forall g :: g in ClientGroups(ps, accts) ==>
              && g.accountHolders.primaryAccountHolder < |ps|
              && IndexBelow(g.accountHolders.secondaryAccountHolder, |ps|)
  {
    var cs := OrderedSet.FromSeq(ComboEvents(ps, accts));
    HolderCombinationsCorrect(ps, accts);
    forall g | g in ClientGroups(ps, accts)
      ensures g.accountHolders.primaryAccountHolder < |ps|
      ensures IndexBelow(g.accountHolders.secondaryAccountHolder, |ps|)
    {
      var k :| 0 <= k < |ClientGroups(ps, accts)| && ClientGroups(ps, accts)[k] == g;
      assert cs[k] in cs;
    }
  }

  /** The resolution of a reference is whatever `FindIndex` gives. */
  lemma ResolvedIsFindIndex(ps: seq<Participant>, ref: Option<string>, r: Option<nat>)
    requires Resolves(ps, ref, r)
    ensures r == FindIndex(ps, ref)
  {
    ResolvesUnique(ps, ref, r, FindIndex(ps, ref));
  }

  /** The combination account `k` contributes, read off the document's account `k`. */
  lemma AccountCombo(ps: seq<Participant>, accts: seq<Account>, outs: seq<ClientAccount>, k: nat)
    requires AccountsMaterialized(ps, accts, outs) && k < |accts|
    ensures ComboOf(ps, accts[k]) ==
      if outs[k].primaryAccountHolder.Some?
      then Some(Combo(outs[k].primaryAccountHolder.value, outs[k].secondaryAccountHolder))
      else None
  {
    var a, out := accts[k], outs[k];
    assert AccountMaterialized(ps, a, out);
    ResolvedIsFindIndex(ps, Some(a.primaryAccountHolder), out.primaryAccountHolder);
    ResolvedIsFindIndex(ps, a.secondaryAccountHolder, out.secondaryAccountHolder);
  }

  /** The group of a document account that has a primary holder. */
  function GroupOf(out: ClientAccount): ClientGroup
    requires out.primaryAccountHolder.Some?
  {
    ClientGroup(AccountHolders(out.primaryAccountHolder.value, out.secondaryAccountHolder))
  }

  /** The client groups are pairwise different and no more numerous than the accounts. */
  lemma GroupsDistinct(ps: seq<Participant>, accts: seq<Account>)
    ensures forall a, b :: 0 <= a < b < |ClientGroups(ps, accts)| ==> ClientGroups(ps, accts)[a] != ClientGroups(ps, accts)[b]
    ensures |ClientGroups(ps, accts)| <= |accts|
  {
    var cs := OrderedSet.FromSeq(ComboEvents(ps, accts));
    HolderCombinationsCorrect(ps, accts);
    forall a, b | 0 <= a < b < |ClientGroups(ps, accts)|
      ensures ClientGroups(ps, accts)[a] != ClientGroups(ps, accts)[b]
    {
      assert cs[a] != cs[b];
    }
  }

  /** Group `j` is the group of some account with a primary holder. */
  lemma GroupHasAccount(ps: seq<Participant>, accts: seq<Account>, outs: seq<ClientAccount>, j: nat) returns (k: nat)
    requires AccountsMaterialized(ps, accts, outs) && j < |ClientGroups(ps, accts)|
    ensures k < |outs| && outs[k].primaryAccountHolder.Some?
    ensures ClientGroups(ps, accts)[j] == GroupOf(outs[k])
  {
    var cs := OrderedSet.FromSeq(ComboEvents(ps, accts));
    HolderCombinationsCorrect(ps, accts);
    assert cs[j] in cs;
    k :| 0 <= k < |accts| && ComboOf(ps, accts[k]) == Some(cs[j]);
    AccountCombo(ps, accts, outs, k);
  }

  /** An account with a primary holder has its group among the client groups. */
  lemma AccountHasGroup(ps: seq<Participant>, accts: seq<Account>, outs: seq<ClientAccount>, k: nat)
    requires AccountsMaterialized(ps, accts, outs) && k < |outs| && outs[k].primaryAccountHolder.Some?
    ensures GroupOf(outs[k]) in ClientGroups(ps, accts)
  {
    var cs := OrderedSet.FromSeq(ComboEvents(ps, accts));
    HolderCombinationsCorrect(ps, accts);
    AccountCombo(ps, accts, outs, k);
    var c := ComboOf(ps, accts[k]).value;
    assert c in cs;
    var j :| 0 <= j < |cs| && cs[j] == c;
    assert ClientGroups(ps, accts)[j] == GroupOf(outs[k]);
  }

  /** The client groups are exactly the holder pairs of the accounts that have
      a primary holder. */
  lemma GroupsExact(ps: seq<Participant>, accts: seq<Account>, outs: seq<ClientAccount>)
    requires AccountsMaterialized(ps, accts, outs)
    ensures forall g :: g in ClientGroups(ps, accts) <==>
              exists k :: 0 <= k < |outs| && outs[k].primaryAccountHolder.Some? && g == GroupOf(outs[k])
  {
    forall g | g in ClientGroups(ps, accts)
      ensures exists k :: 0 <= k < |outs| && outs[k].primaryAccountHolder.Some? && g == GroupOf(outs[k])
    {
      var j :| 0 <= j < |ClientGroups(ps, accts)| && ClientGroups(ps, accts)[j] == g;
      var k := GroupHasAccount(ps, accts, outs, j);
    }
    forall k | 0 <= k < |outs| && outs[k].primaryAccountHolder.Some?
      ensures GroupOf(outs[k]) in ClientGroups(ps, accts)
    {
      AccountHasGroup(ps, accts, outs, k);
    }
  }

  /** The client groups of the document are pairwise different, no more
      numerous than the accounts, and are exactly the holder pairs of the
      document's accounts that have a primary holder. */
  lemma DocumentGroupsCorrect(req: WizardRequest, doc: ClientDocument)
    requires Synthesizes(req, doc)
    ensures forall a, b :: 0 <= a < b < |doc.clientGroups| ==> doc.clientGroups[a] != doc.clientGroups[b]
    ensures |doc.clientGroups| <= |req.accounts|
    ensures forall g :: g in doc.clientGroups <==>
              exists k :: 0 <= k < |doc.accounts| && doc.accounts[k].primaryAccountHolder.Some? && g == GroupOf(doc.accounts[k])
  {
    GroupsDistinct(req.participants, req.accounts);
    GroupsExact(req.participants, req.accounts, doc.accounts);
  }

  /** Participant `i` is an account holder exactly when some account of the
      output names it as primary or secondary holder, a beneficiary exactly
      when some account names it as beneficiary, has each role at most once,
      and has no role when no account names it. */
  lemma ParticipantRolesCorrect(ps: seq<Participant>, accts: seq<Account>, outs: seq<ClientAccount>, i: nat)
    requires AccountsMaterialized(ps, accts, outs)
    ensures var role := OrderedSet.FromSeq(RoleEvents(ps, accts, i));
      && OrderedSet.NoDup(role)
      && (AccountHolder in role <==>
            exists k :: 0 <= k < |outs| && (outs[k].primaryAccountHolder == Some(i) || outs[k].secondaryAccountHolder == Some(i)))
      && (Beneficiary in role <==> exists k :: 0 <= k < |outs| && outs[k].beneficiary == Some(i))
      && (role == [] <==>
            forall k :: 0 <= k < |outs| ==>
              outs[k].primaryAccountHolder != Some(i) && outs[k].secondaryAccountHolder != Some(i) && outs[k].beneficiary != Some(i))
  {
    RolesCorrect(ps, accts, i);
    forall k | 0 <= k < |accts|
      ensures HoldsAccount(ps, accts[k], i) <==>
                (outs[k].primaryAccountHolder == Some(i) || outs[k].secondaryAccountHolder == Some(i))
      ensures BenefitsFrom(ps, accts[k], i) <==> outs[k].beneficiary == Some(i)
    {
      assert AccountMaterialized(ps, accts[k], outs[k]);
      ResolvedIsFindIndex(ps, Some(accts[k].primaryAccountHolder), outs[k].primaryAccountHolder);
      ResolvedIsFindIndex(ps, accts[k].secondaryAccountHolder, outs[k].secondaryAccountHolder);
      ResolvedIsFindIndex(ps, accts[k].beneficiary, outs[k].beneficiary);
    }
  }

  /** The roles of the document's participant `i`, stated against the document's accounts. */
  lemma DocumentRolesCorrect(req: WizardRequest, doc: ClientDocument, i: nat)
    requires Synthesizes(req, doc) && i < |doc.participants|
    ensures OrderedSet.NoDup(doc.participants[i].role)
    ensures AccountHolder in doc.participants[i].role <==>
              exists k :: 0 <= k < |doc.accounts| &&
                (doc.accounts[k].primaryAccountHolder == Some(i) || doc.accounts[k].secondaryAccountHolder == Some(i))
    ensures Beneficiary in doc.participants[i].role <==>
              exists k :: 0 <= k < |doc.accounts| && doc.accounts[k].beneficiary == Some(i)
    ensures doc.participants[i].role == [] <==>
              forall k :: 0 <= k < |doc.accounts| ==>
                && doc.accounts[k].primaryAccountHolder != Some(i)
                && doc.accounts[k].secondaryAccountHolder != Some(i)
                && doc.accounts[k].beneficiary != Some(i)
  {
    assert ParticipantMaterialized(req.participants, req.accounts, i, doc.participants[i]);
    ParticipantRolesCorrect(req.participants, req.accounts, doc.accounts, i);
  }

  /** The document is a function of the request: two documents that both meet
      the description are the same document. */
  lemma SynthesisDeterministic(req: WizardRequest, d1: ClientDocument, d2: ClientDocument)
    requires Synthesizes(req, d1) && Synthesizes(req, d2)
    ensures d1 == d2
  {
    var ps, accts := req.participants, req.accounts;
    forall i | 0 <= i < |ps|
      ensures d1.participants[i] == d2.participants[i]
    {
      assert ParticipantMaterialized(ps, accts, i, d1.participants[i]);
      assert ParticipantMaterialized(ps, accts, i, d2.participants[i]);
    }
    forall k | 0 <= k < |accts|
      ensures d1.accounts[k] == d2.accounts[k]
    {
      var a1, a2 := d1.accounts[k], d2.accounts[k];
      assert AccountMaterialized(ps, accts[k], a1) && AccountMaterialized(ps, accts[k], a2);
      ResolvesUnique(ps, Some(accts[k].primaryAccountHolder), a1.primaryAccountHolder, a2.primaryAccountHolder);
      ResolvesUnique(ps, accts[k].secondaryAccountHolder, a1.secondaryAccountHolder, a2.secondaryAccountHolder);
      ResolvesUnique(ps, accts[k].beneficiary, a1.beneficiary, a2.beneficiary);
    }
    assert d1.participants == d2.participants;
    assert d1.accounts == d2.accounts;
  }

  // ---------------------------------------------------------- scenarios

  function Person(id: string, firstName: string, lastName: string): Participant {
    Participant(id, "Mr", firstName, lastName, "Male", "")
  }

  function Request(ps: seq<Participant>, accts: seq<Account>): WizardRequest {
    WizardRequest(LoginInformation(None, None), false, ps, accts, "RR01")
  }

  /** One participant holding one cash account. */
  lemma ScenarioSingleHolder(doc: ClientDocument)
    requires Synthesizes(Request([Person("P1", "John", "Doe")], [Account("CASH", "P1", None, None)]), doc)
    ensures doc.participants[0].id == "P001" && doc.participants[0].index == 0
    ensures doc.participants[0].role == [AccountHolder]
    ensures doc.accounts == [ClientAccount("CASH", Some(0), None, None)]
    ensures doc.loginInformation == ClientLogin("", "")
  {
    var ps := [Person("P1", "John", "Doe")];
    var accts := [Account("CASH", "P1", None, None)];
    SingleHolderEvents(ps, accts);
    assert ParticipantMaterialized(ps, accts, 0, doc.participants[0]);
    FirstParticipantId();
    assert AccountMaterialized(ps, accts[0], doc.accounts[0]);
    ResolvedIsFindIndex(ps, Some("P1"), doc.accounts[0].primaryAccountHolder);
    ResolvedIsFindIndex(ps, None, doc.accounts[0].secondaryAccountHolder);
    ResolvedIsFindIndex(ps, None, doc.accounts[0].beneficiary);
  }

  /** The single holder gets a group of their own. */
  lemma ScenarioSingleHolderGroup()
    ensures ClientGroups([Person("P1", "John", "Doe")], [Account("CASH", "P1", None, None)])
            == [ClientGroup(AccountHolders(0, None))]
  {
    var ps := [Person("P1", "John", "Doe")];
    var accts := [Account("CASH", "P1", None, None)];
    SingleHolderEvents(ps, accts);
    assert ClientGroups(ps, accts) == MaterializeGroups([Combo(0, None)]);
  }

  lemma SingleHolderEvents(ps: seq<Participant>, accts: seq<Account>)
    requires ps == [Person("P1", "John", "Doe")] && accts == [Account("CASH", "P1", None, None)]
    ensures FindIndex(ps, Some("P1")) == Some(0) && FindIndex(ps, None) == None
    ensures OrderedSet.FromSeq(RoleEvents(ps, accts, 0)) == [AccountHolder]
    ensures OrderedSet.FromSeq(ComboEvents(ps, accts)) == [Combo(0, None)]
  {
    assert FindIndex(ps, Some("P1")) == Some(0);
    assert Credits(ps, accts[0], 0) == [AccountHolder];
    assert accts == [] + [accts[0]];
    RoleEventsSnoc(ps, [], accts[0], 0);
    OrderedSet.FromSeqSnoc([], AccountHolder);
    ComboEventsSnoc(ps, [], accts[0]);
    OrderedSet.FromSeqSnoc([], Combo(0, None));
  }

  /** Two accounts held by the same pair collapse into one group. */
  lemma ScenarioSharedPairGroup()
    ensures ClientGroups([Person("P1", "Ann", "Lee"), Person("P2", "Bo", "Lee")],
                         [Account("CASH", "P1", Some("P2"), None), Account("MARGIN", "P1", Some("P2"), Some("P9"))])
            == [ClientGroup(AccountHolders(0, Some(1)))]
  {
    var ps := [Person("P1", "Ann", "Lee"), Person("P2", "Bo", "Lee")];
    var accts := [Account("CASH", "P1", Some("P2"), None), Account("MARGIN", "P1", Some("P2"), Some("P9"))];
    SharedPairEvents(ps, accts);
    assert ClientGroups(ps, accts) == MaterializeGroups([Combo(0, Some(1))]);
  }

  /** An unknown beneficiary id is left off its account without touching
      anyone's roles. */
  lemma ScenarioSharedPair(doc: ClientDocument)
    requires Synthesizes(Request([Person("P1", "Ann", "Lee"), Person("P2", "Bo", "Lee")],
                                 [Account("CASH", "P1", Some("P2"), None), Account("MARGIN", "P1", Some("P2"), Some("P9"))]), doc)
    ensures doc.accounts[1] == ClientAccount("MARGIN", Some(0), Some(1), None)
    ensures doc.participants[0].role == [AccountHolder] && doc.participants[1].role == [AccountHolder]
  {
    var ps := [Person("P1", "Ann", "Lee"), Person("P2", "Bo", "Lee")];
    var accts := [Account("CASH", "P1", Some("P2"), None), Account("MARGIN", "P1", Some("P2"), Some("P9"))];
    SharedPairEvents(ps, accts);
    assert ParticipantMaterialized(ps, accts, 0, doc.participants[0]);
    assert ParticipantMaterialized(ps, accts, 1, doc.participants[1]);
    assert AccountMaterialized(ps, accts[1], doc.accounts[1]);
    ResolvedIsFindIndex(ps, Some("P1"), doc.accounts[1].primaryAccountHolder);
    ResolvedIsFindIndex(ps, Some("P2"), doc.accounts[1].secondaryAccountHolder);
    ResolvedIsFindIndex(ps, Some("P9"), doc.accounts[1].beneficiary);
  }

  lemma SharedPairEvents(ps: seq<Participant>, accts: seq<Account>)
    requires ps == [Person("P1", "Ann", "Lee"), Person("P2", "Bo", "Lee")]
    requires accts == [Account("CASH", "P1", Some("P2"), None), Account("MARGIN", "P1", Some("P2"), Some("P9"))]
    ensures FindIndex(ps, Some("P1")) == Some(0) && FindIndex(ps, Some("P2")) == Some(1)
    ensures FindIndex(ps, Some("P9")) == None
    ensures OrderedSet.FromSeq(ComboEvents(ps, accts)) == [Combo(0, Some(1))]
    ensures OrderedSet.FromSeq(RoleEvents(ps, accts, 0)) == [AccountHolder]
    ensures OrderedSet.FromSeq(RoleEvents(ps, accts, 1)) == [AccountHolder]
  {
    var a0, a1 := accts[0], accts[1];
    assert FindIndex(ps, Some("P1")) == Some(0);
    assert FindIndex(ps, Some("P2")) == Some(1);
    assert FindIndex(ps, Some("P9")) == None;
    assert accts == [a0] + [a1] && [a0] == [] + [a0];
    var c := Combo(0, Some(1));
    ComboEventsSnoc(ps, [], a0);
    ComboEventsSnoc(ps, [a0], a1);
    assert ComboEvents(ps, accts) == [c] + [c];
    OrderedSet.FromSeqSnoc([], c);
    OrderedSet.FromSeqSnoc([c], c);
    TwoHolderCredits(ps, accts, 0);
    TwoHolderCredits(ps, accts, 1);
  }

  lemma TwoHolderCredits(ps: seq<Participant>, accts: seq<Account>, i: nat)
    requires ps == [Person("P1", "Ann", "Lee"), Person("P2", "Bo", "Lee")]
    requires accts == [Account("CASH", "P1", Some("P2"), None), Account("MARGIN", "P1", Some("P2"), Some("P9"))]
    requires i < 2
    ensures OrderedSet.FromSeq(RoleEvents(ps, accts, i)) == [AccountHolder]
  {
    var a0, a1 := accts[0], accts[1];
    assert FindIndex(ps, Some("P1")) == Some(0);
    assert FindIndex(ps, Some("P2")) == Some(1);
    assert FindIndex(ps, Some("P9")) == None;
    assert Credits(ps, a0, i) == [AccountHolder];
    assert Credits(ps, a1, i) == [AccountHolder];
    assert accts == [a0] + [a1] && [a0] == [] + [a0];
    RoleEventsSnoc(ps, [], a0, i);
    RoleEventsSnoc(ps, [a0], a1, i);
    assert RoleEvents(ps, accts, i) == [AccountHolder] + [AccountHolder];
    OrderedSet.FromSeqSnoc([], AccountHolder);
    OrderedSet.FromSeqSnoc([AccountHolder], AccountHolder);
  }
}
