/** DebtorNotificationService: builds the e-mail events sent to debtors.
    The sender is a log of the events handed to it; what it does with them
    (serialisation, the message queue) is outside the model. */
module DebtorNotification {
  import opened Domain
  import opened Seqs
  import opened OwnerStores
  import opened OwnerServiceModel

  datatype EmailType = ALL_DEBTOR_NOTIFICATION | SINGLE_DEBTOR_NOTIFICATION

  /** A parameter value: a string, or the debt amount (String.valueOf of a
      BigDecimal, kept as the number it renders). */
  datatype Param = Text(s: string) | Amount(a: real)

  datatype EmailEvent = EmailEvent(email: string, emailType: EmailType, params: map<string, Param>)

  /** The EmailSender collaborator: every event sent, in order. */
  class EmailSender {
    ghost var sent: seq<EmailEvent>

    constructor()
      ensures sent == []
    {
      sent := [];
    }

    method Send(event: EmailEvent)
      modifies this
      ensures sent == old(sent) + [event]
    {
      sent := sent + [event];
    }
  }

  // ---------------------------------------------------------------------
  // String.valueOf(int) for the debtor count

  function Digit(d: nat): (c: char)
    requires d < 10
    ensures '0' <= c <= '9'
  {
    "0123456789"[d]
  }

  function DigitValue(c: char): nat {
    if '0' <= c <= '9' then (c - '0') as nat else 0
  }

  /** The decimal notation of n, without leading zeros. */
  function DecimalString(n: nat): (r: string)
    ensures |r| >= 1
    ensures forall i :: 0 <= i < |r| ==> '0' <= r[i] <= '9'
    ensures n >= 10 ==> r[0] != '0'
  {
    if n < 10 then [Digit(n)] else DecimalString(n / 10) + [Digit(n % 10)]
  }

  /** The number a string of decimal digits denotes. */
  function ParseDecimal(s: string): nat {
    if s == [] then 0 else ParseDecimal(s[..|s| - 1]) * 10 + DigitValue(s[|s| - 1])
  }

  lemma {:induction false} DigitRoundTrip(d: nat)
    requires d < 10
    ensures DigitValue(Digit(d)) == d
  {
  }

  /** The rendered count reads back as the count. */
  lemma {:induction false} DecimalStringRoundTrip(n: nat)
    ensures ParseDecimal(DecimalString(n)) == n
  {
    DigitRoundTrip(n % 10);
    if n < 10 {
      assert [Digit(n)][..0] == [];
    } else {
      var s := DecimalString(n);
      assert s[..|s| - 1] == DecimalString(n / 10);
      DecimalStringRoundTrip(n / 10);
    }
  }

  // ---------------------------------------------------------------------
  // Formatting of the single-debtor event

  function YesNo(b: bool): string {
    if b then "Yes" else "No"
  }

  /** The enum constant's name. */
  function StatusName(s: FamilyStatus): (r: string)
    ensures |r| >= 1
  {
    match s
    case SINGLE => "SINGLE"
    case MARRIED => "MARRIED"
    case Unlisted(name) => name
  }

  function LowerChar(c: char): char {
    if 'A' <= c <= 'Z' then (c - 'A' + 'a') as char else c
  }

  function UpperChar(c: char): char {
    if 'a' <= c <= 'z' then (c - 'a' + 'A') as char else c
  }

  function LowerCase(s: string): (r: string)
    ensures |r| == |s|
  {
    seq(|s|, i requires 0 <= i < |s| => LowerChar(s[i]))
  }

  function UpperCase(s: string): (r: string)
    ensures |r| == |s|
  {
    seq(|s|, i requires 0 <= i < |s| => UpperChar(s[i]))
  }

  /** The first character, then the lower-cased rest. */
  function TitleCase(s: string): string
    requires |s| >= 1
  {
    [s[0]] + LowerCase(s)[1..]
  }

  /** No lower-case letter occurs: an enum constant's name. */
  predicate NoLowerCase(s: string) {
    forall i :: 0 <= i < |s| ==> !('a' <= s[i] <= 'z')
  }

  /** Title case keeps the length and the first character, lowers the rest,
      and loses nothing: upper-casing it again gives back a name with no
      lower-case letters. */
  lemma {:induction false} TitleCaseRoundTrip(s: string)
    requires |s| >= 1 && NoLowerCase(s)
    ensures |TitleCase(s)| == |s| && TitleCase(s)[0] == s[0]
    ensures forall i :: 1 <= i < |s| ==> TitleCase(s)[i] == LowerChar(s[i])
    ensures UpperCase(TitleCase(s)) == s
  {
    var t := TitleCase(s);
    forall i | 0 <= i < |s| ensures UpperCase(t)[i] == s[i] {
      if i > 0 {
        assert t[i] == LowerChar(s[i]);
      }
    }
  }

  lemma {:induction false} StatusNamesInTitleCase()
    ensures TitleCase(StatusName(SINGLE)) == "Single"
    ensures TitleCase(StatusName(MARRIED)) == "Married"
  {
    assert LowerCase("SINGLE") == "single";
    assert LowerCase("MARRIED") == "married";
  }

  // ---------------------------------------------------------------------
  // The events

  /** The parameters of a bulk event for one debtor, as the shared map holds
      them when that debtor's event is sent. */
  function BulkParams(count: nat, d: Owner): map<string, Param> {
    map["numberOfDebtors" := Text(DecimalString(count)),
        "firstName" := Text(d.firstName),
        "lastName" := Text(d.lastName),
        "debt" := Amount(d.taxesDebt)]
  }

  /** The shared map after the loop body has put one debtor's name and
      debt into it. */
  function Refill(params: map<string, Param>, d: Owner): map<string, Param> {
    params["firstName" := Text(d.firstName)]["lastName" := Text(d.lastName)]["debt" := Amount(d.taxesDebt)]
  }

  /** Whatever debtor filled the map before, refilling it for `d` leaves
      exactly the parameters of d's bulk event. */
  lemma {:induction false} RefillGivesBulkParams(params: map<string, Param>, count: nat, d: Owner)
    requires params.Keys <= {"numberOfDebtors", "firstName", "lastName", "debt"}
    requires "numberOfDebtors" in params && params["numberOfDebtors"] == Text(DecimalString(count))
    ensures Refill(params, d) == BulkParams(count, d)
  {
    var r := Refill(params, d);
    assert r.Keys == BulkParams(count, d).Keys;
  }

  /** One ALL_DEBTOR_NOTIFICATION event per debtor, in list order. */
  function BulkEvents(debtors: seq<Owner>): seq<EmailEvent> {
    seq(|debtors|, i requires 0 <= i < |debtors| =>
      EmailEvent(debtors[i].email, ALL_DEBTOR_NOTIFICATION, BulkParams(|debtors|, debtors[i])))
  }

  /** Every event of a batch goes to its own debtor, carries exactly the
      four parameters of that debtor, and reports the same count: the size
      of the batch. */
  lemma {:induction false} BulkEventsPerDebtor(debtors: seq<Owner>)
    ensures |BulkEvents(debtors)| == |debtors|
    ensures forall i :: 0 <= i < |debtors| ==>
      var e := BulkEvents(debtors)[i];
      && e.email == debtors[i].email && e.emailType == ALL_DEBTOR_NOTIFICATION
      && e.params.Keys == {"numberOfDebtors", "firstName", "lastName", "debt"}
      && e.params["firstName"] == Text(debtors[i].firstName)
      && e.params["lastName"] == Text(debtors[i].lastName)
      && e.params["debt"] == Amount(debtors[i].taxesDebt)
      && e.params["numberOfDebtors"].Text? && ParseDecimal(e.params["numberOfDebtors"].s) == |debtors|
    ensures forall i, j :: 0 <= i < |debtors| && 0 <= j < |debtors| ==>
      BulkEvents(debtors)[i].params["numberOfDebtors"] == BulkEvents(debtors)[j].params["numberOfDebtors"]
  {
    DecimalStringRoundTrip(|debtors|);
  }

  /** The SINGLE_DEBTOR_NOTIFICATION event for one debtor. */
  function SingleEvent(d: Owner): EmailEvent {
    EmailEvent(d.email, SINGLE_DEBTOR_NOTIFICATION,
      map["firstName" := Text(d.firstName),
          "lastName" := Text(d.lastName),
          "debt" := Amount(d.taxesDebt),
          "hasChildren" := Text(YesNo(d.hasChildren)),
          "familyStatus" := Text(TitleCase(StatusName(d.familyStatus)))])
  }

  /** The single event renders the household as "Yes"/"No" and
      "Single"/"Married"; any other status by its name in title case. */
  lemma {:induction false} SingleEventRendering(d: Owner)
    ensures SingleEvent(d).params["hasChildren"] == Text(if d.hasChildren then "Yes" else "No")
    ensures d.familyStatus == SINGLE ==> SingleEvent(d).params["familyStatus"] == Text("Single")
    ensures d.familyStatus == MARRIED ==> SingleEvent(d).params["familyStatus"] == Text("Married")
    ensures d.familyStatus.Unlisted? ==>
      SingleEvent(d).params["familyStatus"] == Text(TitleCase(d.familyStatus.name))
  {
    StatusNamesInTitleCase();
  }

  class DebtorNotificationService {
    const ownerService: OwnerService
    const emailSender: EmailSender

    constructor(ownerService: OwnerService, emailSender: EmailSender)
      ensures this.ownerService == ownerService && this.emailSender == emailSender
    {
      this.ownerService := ownerService;
      this.emailSender := emailSender;
    }

    /** One event per debtor, in list order, each built from one map that
        is refilled for every debtor; no debtors raises
        NoDebtorsInDebtorList and sends nothing. */
    method NotifyAllDebtors() returns (r: Result<bool>)
      modifies emailSender
      ensures var debtors := Debtors(ownerService.ownerRepository.allOwners);
        && (debtors == [] ==> r == Err(NoDebtorsInDebtorList) && emailSender.sent == old(emailSender.sent))
        && (debtors != [] ==> r == Ok(true) && emailSender.sent == old(emailSender.sent) + BulkEvents(debtors))
    {
      var debtors := ownerService.FindDebtors();
      var params: map<string, Param> := map[];
      params := params["numberOfDebtors" := Text(DecimalString(|debtors|))];
      if |debtors| == 0 {
        return Err(NoDebtorsInDebtorList);
      }
      for i := 0 to |debtors|
        invariant emailSender.sent == old(emailSender.sent) + BulkEvents(debtors)[..i]
        invariant params.Keys <= {"numberOfDebtors", "firstName", "lastName", "debt"}
        invariant "numberOfDebtors" in params && params["numberOfDebtors"] == Text(DecimalString(|debtors|))
      {
        var debtor := debtors[i];
        var before := params;
        params := params["firstName" := Text(debtor.firstName)];
        params := params["lastName" := Text(debtor.lastName)];
        params := params["debt" := Amount(debtor.taxesDebt)];
        RefillGivesBulkParams(before, |debtors|, debtor);
        var emailEvent := EmailEvent(debtor.email, ALL_DEBTOR_NOTIFICATION, params);
        emailSender.Send(emailEvent);
        assert BulkEvents(debtors)[..i + 1] == BulkEvents(debtors)[..i] + [emailEvent];
      }
      assert BulkEvents(debtors)[..|debtors|] == BulkEvents(debtors);
      r := Ok(true);
    }

    /** NoSuchOwner for an unknown id, DontHaveTaxDebts for a debt that is
        not positive (both send nothing); otherwise exactly one event. */
    method NotifyDebtorById(id: int) returns (r: Result<bool>)
      modifies emailSender
      ensures var owners := ownerService.ownerRepository.allOwners;
        && (!HasKey(owners, OwnerId, id) ==>
              r == Err(NoSuchOwner) && emailSender.sent == old(emailSender.sent))
        && (HasKey(owners, OwnerId, id) && !IsDebtor(Lookup(owners, id).value) ==>
              r == Err(DontHaveTaxDebts) && emailSender.sent == old(emailSender.sent))
        && (HasKey(owners, OwnerId, id) && IsDebtor(Lookup(owners, id).value) ==>
              r == Ok(true) && emailSender.sent == old(emailSender.sent) + [SingleEvent(Lookup(owners, id).value)])
    {
      var found := ownerService.GetOwnerById(id);
      if found.Err? {
        return Err(NoSuchOwner);
      }
      var debtor := found.value;
      if debtor.taxesDebt <= 0.0 {
        return Err(DontHaveTaxDebts);
      }
      var hasChildren := if debtor.hasChildren then "Yes" else "No";
      var status := StatusName(debtor.familyStatus);
      var familyStatus := [status[0]] + LowerCase(status)[1..];
      var emailEvent := EmailEvent(debtor.email, SINGLE_DEBTOR_NOTIFICATION,
        map["firstName" := Text(debtor.firstName),
            "lastName" := Text(debtor.lastName),
            "debt" := Amount(debtor.taxesDebt),
            "hasChildren" := Text(hasChildren),
            "familyStatus" := Text(familyStatus)]);
      emailSender.Send(emailEvent);
      r := Ok(true);
    }
  }
}
