/** The home page: the list of the user's invoices and the "new invoice" dialog,
    whose create button is gated by the length of the invoice name.

    The page's three state fields are the fields of class `Home`. The user's
    e-mail address and the outcomes of the two store calls (`createEmptyInvoice`
    and `getInvoicesByEmail`) are inputs of the handlers: they are decided
    outside the page. */
module HomePage {
  import opened Wrappers
  import opened InvoiceComponents

  /** Longest invoice name the page accepts, in UTF-16 code units. */
  const MaxNameLength: nat := 60

  /** UTF-16 code units of one character: two for a character outside the
      Basic Multilingual Plane (a surrogate pair), one otherwise. */
  function CodeUnits(c: char): nat {
    if c as int >= 0x1_0000 then 2 else 1
  }

  /** JavaScript's `string.length`: the number of UTF-16 code units. */
  function Utf16Length(s: string): (n: nat)
    ensures |s| <= n <= 2 * |s|
    ensures n == 0 <==> s == ""
  {
    if s == "" then 0 else CodeUnits(s[0]) + Utf16Length(s[1..])
  }

  /** A string of Basic Multilingual Plane characters has one code unit each. */
  lemma {:induction false} Utf16LengthBmp(s: string)
    requires forall i :: 0 <= i < |s| ==> s[i] as int < 0x1_0000
    ensures Utf16Length(s) == |s|
  {
    if s != "" {
      Utf16LengthBmp(s[1..]);
    }
  }

  /** A string of characters outside the Basic Multilingual Plane has two code
      units each. */
  lemma {:induction false} Utf16LengthAstral(s: string)
    requires forall i :: 0 <= i < |s| ==> s[i] as int >= 0x1_0000
    ensures Utf16Length(s) == 2 * |s|
  {
    if s != "" {
      Utf16LengthAstral(s[1..]);
    }
  }

  /** `invoiceName.length <= 60` */
  predicate NameValid(name: string): (r: bool)
    ensures r ==> |name| <= MaxNameLength
    ensures |name| <= MaxNameLength / 2 ==> r
  {
    Utf16Length(name) <= MaxNameLength
  }

  /** The create button is enabled unless the name was found invalid or its
      `length` is 0, that is, unless it is the empty string. */
  predicate CreateEnabled(isNameValid: bool, name: string): (r: bool)
    ensures r <==> isNameValid && name != ""
  {
    !(!isNameValid || Utf16Length(name) == 0)
  }

  /** JavaScript truthiness of the e-mail: neither absent nor the empty string. */
  predicate EmailPresent(email: Option<string>): (r: bool)
    ensures r ==> email.Some? && |email.value| >= 1
    ensures email.None? || email == Some("") ==> !r
  {
    email.Some? && email.value != ""
  }

  /** What the store's `getInvoicesByEmail` gave back. */
  datatype FetchResult = Data(invoices: seq<Invoice>) | NoData | FetchFailed

  /** Whether the store's `createEmptyInvoice` returned or threw. */
  datatype CreateOutcome = Created | CreateThrew

  /** A call `createEmptyInvoice(email, name)` issued to the store. */
  datatype CreateRequest = CreateRequest(email: string, name: string)

  /** Once the validity effect has run, the create button is enabled exactly
      when the name has between 1 and 60 UTF-16 code units. */
  lemma CreateEnabledIff(name: string)
    ensures CreateEnabled(NameValid(name), name) <==> 1 <= Utf16Length(name) <= MaxNameLength
  {
  }

  /** 60 ASCII characters are accepted; 0 and 61 are not. 30 emoji (60 code
      units) are accepted; 31 emoji (62 code units) are not. */
  lemma CreateEnabledBoundaries()
    ensures CreateEnabled(NameValid(seq(60, _ => 'a')), seq(60, _ => 'a'))
    ensures !CreateEnabled(NameValid(seq(61, _ => 'a')), seq(61, _ => 'a'))
    ensures !CreateEnabled(NameValid(""), "")
    ensures CreateEnabled(NameValid(seq(30, _ => '\U{1F600}')), seq(30, _ => '\U{1F600}'))
    ensures !CreateEnabled(NameValid(seq(31, _ => '\U{1F600}')), seq(31, _ => '\U{1F600}'))
  {
    Utf16LengthBmp(seq(60, _ => 'a'));
    Utf16LengthAstral(seq(30, _ => '\U{1F600}'));
    Utf16LengthAstral(seq(31, _ => '\U{1F600}'));
  }

  class Home {
    var invoiceName: string
    var isNameValid: bool
    var invoices: seq<Invoice>
    /** Create calls issued to the store whose `await` has not resumed yet. */
    ghost var awaiting: seq<CreateRequest>

    /** The state before any input: empty name, valid, no invoices. */
    constructor ()
      ensures invoiceName == "" && isNameValid && invoices == [] && awaiting == []
      ensures NameSettled()
    {
      invoiceName := "";
      isNameValid := true;
      invoices := [];
      awaiting := [];
    }

    /** `isNameValid` agrees with the current name: the validity effect has run
        since the name last changed. */
    predicate NameSettled()
      reads this
    {
      isNameValid == NameValid(invoiceName)
    }

    /** The `disabled` attribute of the create button, negated. */
    predicate CreateButtonEnabled(): (r: bool)
      reads this
      ensures r ==> invoiceName != ""
      ensures NameSettled() ==> (r <==> 1 <= Utf16Length(invoiceName) <= MaxNameLength)
    {
      CreateEnabled(isNameValid, invoiceName)
    }

    /** The text input's `onChange`: the name changes; `isNameValid` keeps its
        old value until the effect runs. */
    method OnNameChange(name: string)
      modifies this
      ensures invoiceName == name
      ensures isNameValid == old(isNameValid) && invoices == old(invoices) && awaiting == old(awaiting)
    {
      invoiceName := name;
    }

    /** The effect that runs after the name changes. */
    method NameValidityEffect()
      modifies this
      ensures isNameValid == NameValid(invoiceName) && NameSettled()
      ensures invoiceName == old(invoiceName) && invoices == old(invoices) && awaiting == old(awaiting)
    {
      isNameValid := Utf16Length(invoiceName) <= MaxNameLength;
    }

    /** `fetchInvoices`, when the store's answer arrives: the list is replaced
        only when the store returns data; on no data or an error it is left as
        it was. */
    method FetchInvoices(result: FetchResult)
      modifies this
      ensures invoices == (if result.Data? then result.invoices else old(invoices))
      ensures result.FetchFailed? || result.NoData? ==> invoices == old(invoices)
      ensures invoiceName == old(invoiceName) && isNameValid == old(isNameValid)
      ensures awaiting == old(awaiting)
    {
      match result {
        case Data(data) =>
          invoices := data;
        case NoData =>
        case FetchFailed =>
      }
    }

    /** `handleCreateInvoice` up to its `await`. With an e-mail present, the
        store's create call is issued with the current name and the handler
        waits: nothing on the page changes yet, so the button stays enabled.
        Without one, nothing is awaited: a fetch is started (its answer arrives
        later through `FetchInvoices`) and the name is reset to "", which
        disables the button whatever `isNameValid` says. */
    method HandleCreateInvoice(email: Option<string>) returns (request: Option<CreateRequest>)
      modifies this
      ensures request == (if EmailPresent(email) then Some(CreateRequest(email.value, old(invoiceName))) else None)
      ensures isNameValid == old(isNameValid) && invoices == old(invoices)
      ensures request.Some? ==> invoiceName == old(invoiceName) && awaiting == old(awaiting) + [request.value]
      ensures request.None? ==> invoiceName == "" && awaiting == old(awaiting) && !CreateButtonEnabled()
    {
      if EmailPresent(email) {
        request := Some(CreateRequest(email.value, invoiceName));
        awaiting := awaiting + [request.value];
      } else {
        request := None;
        invoiceName := "";
      }
    }

    /** The rest of `handleCreateInvoice`, once the create call awaited by
        `awaiting[i]` settles. If it threw, nothing changes. Otherwise a fetch is
        started (its answer arrives later through `FetchInvoices`) and the name
        is reset to "", wiping whatever was typed during the wait, and the
        button is disabled. */
    method CreateInvoiceResumed(i: nat, outcome: CreateOutcome)
      requires i < |awaiting|
      modifies this
      ensures awaiting == old(awaiting[..i] + awaiting[i + 1..])
      ensures isNameValid == old(isNameValid) && invoices == old(invoices)
      ensures outcome == CreateThrew ==> invoiceName == old(invoiceName)
      ensures outcome == Created ==> invoiceName == "" && !CreateButtonEnabled()
    {
      awaiting := awaiting[..i] + awaiting[i + 1..];
      if outcome == Created {
        invoiceName := "";
      }
    }

    /** A click on the create button: a disabled button does nothing; an enabled
        one starts `handleCreateInvoice`. When the validity effect has run, a
        name sent to the store has between 1 and 60 UTF-16 code units. */
    method ClickCreate(email: Option<string>) returns (request: Option<CreateRequest>)
      modifies this
      ensures !old(CreateButtonEnabled()) ==>
        request == None && invoiceName == old(invoiceName) && awaiting == old(awaiting)
      ensures old(CreateButtonEnabled()) ==>
        request == (if EmailPresent(email) then Some(CreateRequest(email.value, old(invoiceName))) else None)
      ensures isNameValid == old(isNameValid) && invoices == old(invoices)
      ensures old(CreateButtonEnabled()) && request.Some? ==>
        invoiceName == old(invoiceName) && awaiting == old(awaiting) + [request.value]
      ensures old(CreateButtonEnabled()) && request.None? ==>
        invoiceName == "" && awaiting == old(awaiting)
      ensures old(NameSettled()) && request.Some? ==> 1 <= Utf16Length(request.value.name) <= MaxNameLength
    {
      if !CreateButtonEnabled() {
        request := None;
      } else {
        request := HandleCreateInvoice(email);
      }
    }
  }

  /** The dialog driven through its boundary cases: a 61-character name leaves the
      button disabled, a 60-character name enables it, a click with an e-mail
      sends that name to the store; once the create returns the button is
      disabled again, and the list then holds what the store returned. */
  method CreateDialogScenario(email: string, stored: seq<Invoice>)
    returns (enabledAt61: bool, enabledAt60: bool, request: Option<CreateRequest>,
             enabledAfter: bool, shown: seq<Invoice>)
    requires email != ""
    ensures !enabledAt61 && enabledAt60 && !enabledAfter
    ensures request == Some(CreateRequest(email, seq(60, _ => 'a')))
    ensures shown == stored
  {
    var home := new Home();
    home.OnNameChange(seq(61, _ => 'a'));
    home.NameValidityEffect();
    enabledAt61 := home.CreateButtonEnabled();
    Utf16LengthBmp(seq(60, _ => 'a'));
    home.OnNameChange(seq(60, _ => 'a'));
    home.NameValidityEffect();
    enabledAt60 := home.CreateButtonEnabled();
    request := home.ClickCreate(Some(email));
    home.CreateInvoiceResumed(0, Created);
    home.NameValidityEffect();
    enabledAfter := home.CreateButtonEnabled();
    home.FetchInvoices(Data(stored));
    shown := home.invoices;
  }

  /** Two clicks while the first create is awaited: the button is still
      enabled, so the same create call is issued twice; text typed during the
      wait is wiped when the first create returns. */
  method DoubleClickScenario(email: string, typed: string)
    returns (first: Option<CreateRequest>, second: Option<CreateRequest>, nameAfter: string)
    requires email != ""
    ensures first == second == Some(CreateRequest(email, "facture"))
    ensures nameAfter == ""
  {
    var home := new Home();
    home.OnNameChange("facture");
    home.NameValidityEffect();
    first := home.ClickCreate(Some(email));
    second := home.ClickCreate(Some(email));
    home.OnNameChange(typed);
    home.NameValidityEffect();
    home.CreateInvoiceResumed(0, Created);
    nameAfter := home.invoiceName;
  }
}
