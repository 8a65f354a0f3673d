/** The older wizard generator of packages/api/src/scripts/createClientWizard.js:
    participants keep their position as role (the first is the primary), accounts
    get sequential numbers and a default balance, holders are listed by the ids
    the request gave, and every document gets the same standard group. */
module LegacyWizard {
  import opened Wrappers
  import Decimal

  datatype Participant = Participant(title: string, firstName: string, lastName: string, gender: string)

  /** A holder field is the participant id the request gives, copied as text. */
  datatype Account = Account(accountType: string, primaryAccountHolder: string, secondaryAccountHolder: Option<string>)

  datatype LoginInformation = LoginInformation(username: string, password: string, email: string)

  datatype Address = Address(street: string, city: string, state: string, zipCode: string)

  datatype Household = Household(name: string, address: Address, phone: string)

  datatype ClientParticipant = ClientParticipant(
    id: string, title: string, firstName: string, lastName: string, gender: string,
    dateOfBirth: string, ssn: string, role: string)

  datatype Holder = Holder(participantId: string, role: string)

  /** `balance` in cents: 100000.00 is 10000000. */
  datatype ClientAccount = ClientAccount(
    accountNumber: string, accountType: string, balanceCents: nat, status: string, accountHolders: seq<Holder>)

  datatype ClientGroup = ClientGroup(groupId: string, name: string, groupType: string)

  datatype ClientDocument = ClientDocument(
    loginInformation: LoginInformation,
    household: Household,
    participants: seq<ClientParticipant>,
    accounts: seq<ClientAccount>,
    clientGroups: seq<ClientGroup>)

  /** `participants[0].firstName` throws when there is no first participant. */
  datatype Error = NoFirstParticipant

  /** `index === 0 ? "PRIMARY" : "SECONDARY"`. */
  function ParticipantRole(index: nat): (role: string)
    ensures role == "PRIMARY" <==> index == 0
    ensures role == "SECONDARY" <==> index != 0
  {
    if index == 0 then "PRIMARY" else "SECONDARY"
  }

  /** `account.type === "MARGIN" ? 100000.00 : 10000.00`, in cents. */
  function Balance(accountType: string): (cents: nat)
    ensures cents == 10000000 <==> accountType == "MARGIN"
    ensures cents == 1000000 <==> accountType != "MARGIN"
  {
    if accountType == "MARGIN" then 10000000 else 1000000
  }

  /** The primary holder, then the secondary one when the request gives a
      non-empty id for it (`undefined` and `""` are both falsy). */
  function Holders(a: Account): (hs: seq<Holder>)
    ensures 1 <= |hs| <= 2
    ensures hs[0] == Holder(a.primaryAccountHolder, "PRIMARY")
    ensures |hs| == 2 <==> a.secondaryAccountHolder.Some? && a.secondaryAccountHolder.value != ""
    ensures |hs| == 2 ==> hs[1] == Holder(a.secondaryAccountHolder.value, "SECONDARY")
  {
    [Holder(a.primaryAccountHolder, "PRIMARY")]
    + (if a.secondaryAccountHolder.Some? && a.secondaryAccountHolder.value != ""
       then [Holder(a.secondaryAccountHolder.value, "SECONDARY")] else [])
  }

  function MaterializeParticipant(p: Participant, index: nat): ClientParticipant {
    ClientParticipant(Decimal.Numbered("P", index + 1), p.title, p.firstName, p.lastName, p.gender,
                      "1990-01-01", "123-45-6789", ParticipantRole(index))
  }

  function MaterializeAccount(a: Account, index: nat): ClientAccount {
    ClientAccount(Decimal.Numbered("ACC", index + 1), a.accountType, Balance(a.accountType), "ACTIVE", Holders(a))
  }

  /** `participants.map((p, index) => ...)`. */
  function MaterializeParticipants(participants: seq<Participant>): (out: seq<ClientParticipant>)
    ensures |out| == |participants|
  {
    seq(|participants|, i requires 0 <= i < |participants| => MaterializeParticipant(participants[i], i))
  }

  /** `accounts.map((account, index) => ...)`. */
  function MaterializeAccounts(accounts: seq<Account>): (out: seq<ClientAccount>)
    ensures |out| == |accounts|
  {
    seq(|accounts|, k requires 0 <= k < |accounts| => MaterializeAccount(accounts[k], k))
  }

  const StandardGroup := ClientGroup("G001", "Standard Group", "STANDARD")

  const DefaultAddress := Address("123 Default St", "Default City", "DS", "12345")

  /** `generateClientJson` of createClientWizard.js:1-57. The two `Date.now()`
      readings it makes are the parameters `userStamp` and `emailStamp`. */
  function GenerateClientJson(participants: seq<Participant>, accounts: seq<Account>, userStamp: nat, emailStamp: nat)
    : (r: Result<ClientDocument, Error>)
    ensures r.Failure? <==> participants == []
    ensures r.Success? ==>
      && r.value.participants == MaterializeParticipants(participants)
      && r.value.accounts == MaterializeAccounts(accounts)
      && r.value.clientGroups == [StandardGroup]
      && r.value.household.name == participants[0].firstName + " " + participants[0].lastName + " Household"
      && r.value.household.address == DefaultAddress
      && r.value.household.phone == "123-456-7890"
      && r.value.loginInformation.username == "user" + Decimal.Digits(userStamp)
      && r.value.loginInformation.password == "Password123"
      && r.value.loginInformation.email == "user" + Decimal.Digits(emailStamp) + "@example.com"
  {
    if participants == [] then Failure(NoFirstParticipant)
    else
      Success(ClientDocument(
        LoginInformation("user" + Decimal.Digits(userStamp), "Password123",
                         "user" + Decimal.Digits(emailStamp) + "@example.com"),
        Household(participants[0].firstName + " " + participants[0].lastName + " Household",
                  DefaultAddress, "123-456-7890"),
        MaterializeParticipants(participants),
        MaterializeAccounts(accounts),
        [StandardGroup]))
  }

  /** Participants of the document follow the request's order, copy the name,
      title and gender, carry the ids P001, P002, ... and exactly the first
      one is the primary. */
  lemma ParticipantsCopied(participants: seq<Participant>)
    ensures var out := MaterializeParticipants(participants);
      forall i :: 0 <= i < |out| ==>
        && out[i].id == Decimal.Numbered("P", i + 1)
        && out[i].title == participants[i].title && out[i].firstName == participants[i].firstName
        && out[i].lastName == participants[i].lastName && out[i].gender == participants[i].gender
        && (out[i].role == "PRIMARY" <==> i == 0)
  {
  }

  /** No two participants share an id. */
  lemma ParticipantIdsDistinct(participants: seq<Participant>)
    ensures var out := MaterializeParticipants(participants);
      forall i, j :: 0 <= i < j < |out| ==> out[i].id != out[j].id
  {
    var out := MaterializeParticipants(participants);
    forall i, j | 0 <= i < j < |out|
      ensures out[i].id != out[j].id
    {
      Decimal.NumberedInjective("P", i + 1, j + 1);
    }
  }

  /** Exactly one participant is the primary, unless there are none. */
  lemma OnePrimary(participants: seq<Participant>)
    ensures var out := MaterializeParticipants(participants);
      |set i | 0 <= i < |out| && out[i].role == "PRIMARY"| == if out == [] then 0 else 1
  {
    var out := MaterializeParticipants(participants);
    var primaries := set i | 0 <= i < |out| && out[i].role == "PRIMARY";
    if out == [] {
      assert primaries == {};
    } else {
      assert 0 in primaries;
      assert primaries == {0};
    }
  }

  /** Accounts of the document follow the request's order, are numbered
      ACC001, ACC002, ..., are active, have the margin balance exactly when
      they are margin accounts, and list the primary holder first and a
      second holder exactly when the request names a non-empty one. */
  lemma AccountsCopied(accounts: seq<Account>)
    ensures var out := MaterializeAccounts(accounts);
      forall k :: 0 <= k < |out| ==>
        && out[k].accountNumber == Decimal.Numbered("ACC", k + 1)
        && out[k].accountType == accounts[k].accountType
        && out[k].status == "ACTIVE"
        && (out[k].balanceCents == 10000000 <==> accounts[k].accountType == "MARGIN")
        && out[k].accountHolders[0] == Holder(accounts[k].primaryAccountHolder, "PRIMARY")
        && (|out[k].accountHolders| == 2 <==>
              accounts[k].secondaryAccountHolder.Some? && accounts[k].secondaryAccountHolder.value != "")
  {
  }

  /** No two accounts share an account number. */
  lemma AccountNumbersDistinct(accounts: seq<Account>)
    ensures var out := MaterializeAccounts(accounts);
      forall k, l :: 0 <= k < l < |out| ==> out[k].accountNumber != out[l].accountNumber
  {
    var out := MaterializeAccounts(accounts);
    forall k, l | 0 <= k < l < |out|
      ensures out[k].accountNumber != out[l].accountNumber
    {
      Decimal.NumberedInjective("ACC", k + 1, l + 1);
    }
  }

  /** The digits after `user` in the username read back as the clock reading
      they were made from, so different readings give different usernames. */
  lemma UsernameStamp(participants: seq<Participant>, accounts: seq<Account>, userStamp: nat, emailStamp: nat)
    requires participants != []
    ensures var username := GenerateClientJson(participants, accounts, userStamp, emailStamp).value.loginInformation.username;
      |username| > 4 && username[..4] == "user" && Decimal.Number(username[4..]) == Some(userStamp)
  {
    var digits := Decimal.Digits(userStamp);
    Decimal.DropPrefix("user", digits);
    Decimal.ValueOfDigits(userStamp);
  }
}
