/** The pure parts of backend/app/nessie_client.py: request URLs, the
    customer payload's street split, and the rule-based translation of
    banking data into a solver payload. */
module Nessie {
  import opened Wrappers
  import opened PyStr
  import Solver

  // ---------------------------------------------------------------------------
  // URLs

  /** The configuration a `NessieClient` builds its URLs from. */
  datatype NessieClient = NessieClient(apiKey: string, baseUrl: string)

  const DefaultBaseUrl: string := "http://api.nessieisreal.com"

  /** `_build_url`: the base, a slash, the endpoint and the key as a query. */
  function BuildUrl(client: NessieClient, endpoint: string): (url: string)
    ensures |url| == |client.baseUrl| + |endpoint| + |client.apiKey| + 6
    ensures url[..|client.baseUrl|] == client.baseUrl && url[|client.baseUrl|] == '/'
    ensures url[|client.baseUrl| + 1..|url| - |client.apiKey| - 5] == endpoint
    ensures url[|url| - |client.apiKey| - 5..] == "?key=" + client.apiKey
  {
    client.baseUrl + "/" + endpoint + "?key=" + client.apiKey
  }

  /** One client never builds the same URL for two endpoints. */
  lemma BuildUrlInjective(client: NessieClient, e1: string, e2: string)
    requires BuildUrl(client, e1) == BuildUrl(client, e2)
    ensures e1 == e2
  {
  }

  /** The endpoints the client's HTTP methods request. */
  datatype Endpoint =
    | Customers
    | CustomerAccounts(customerId: string)
    | AccountBills(accountId: string)
    | AccountPurchases(accountId: string)
    | AccountDeposits(accountId: string)

  function EndpointPath(e: Endpoint): string {
    match e
    case Customers => "customers"
    case CustomerAccounts(id) => "customers/" + id + "/accounts"
    case AccountBills(id) => "accounts/" + id + "/bills"
    case AccountPurchases(id) => "accounts/" + id + "/purchases"
    case AccountDeposits(id) => "accounts/" + id + "/deposits"
  }

  /** Different requests go to different paths, whatever the ids contain. */
  lemma EndpointPathInjective(e1: Endpoint, e2: Endpoint)
    requires EndpointPath(e1) == EndpointPath(e2)
    ensures e1 == e2
  {
    var p := EndpointPath(e1);
    match e1
    case Customers =>
      assert |p| == 9;
    case CustomerAccounts(a) =>
      assert p[0] == 'c' && p[|p| - 2] == 't' && |p| > 9;
      if e2.CustomerAccounts? {
        assert a == p[10..|p| - 9] == e2.customerId;
      }
    case AccountBills(a) =>
      assert p[0] == 'a' && p[|p| - 2] == 'l';
      if e2.AccountBills? {
        assert a == p[9..|p| - 6] == e2.accountId;
      }
    case AccountPurchases(a) =>
      assert p[0] == 'a' && p[|p| - 2] == 'e';
      if e2.AccountPurchases? {
        assert a == p[9..|p| - 10] == e2.accountId;
      }
    case AccountDeposits(a) =>
      assert p[0] == 'a' && p[|p| - 2] == 't';
      if e2.AccountDeposits? {
        assert a == p[9..|p| - 9] == e2.accountId;
      }
  }

  // ---------------------------------------------------------------------------
  // The customer payload

  datatype Address = Address(streetNumber: string, streetName: string, city: string, state: string, zip: string)

  datatype CustomerPayload = CustomerPayload(firstName: string, lastName: string, address: Address)

  /** `d.get(key, "")` on a string dict. */
  function Get(d: map<string, string>, key: string): (r: string)
    ensures key in d ==> r == d[key]
    ensures key !in d ==> r == ""
  {
    if key in d then d[key] else ""
  }

  /** `street.split(" ", 1)` taken apart into the street number and name:
      the number is everything before the first space, the name everything
      after it, and without a space the number is the whole street. */
  function SplitStreet(street: string): (r: (string, string))
    ensures ' ' in street ==> street == r.0 + " " + r.1 && ' ' !in r.0
    ensures ' ' !in street ==> r.0 == street && r.1 == ""
  {
    var parts := SplitOnce(street, ' ');
    var number := if |parts| > 0 then parts[0] else "";
    var name := if |parts| > 1 then parts[1] else "";
    (number, name)
  }

  /** Splitting a street joined from a number without spaces and any name
      gives them back. */
  lemma SplitStreetJoin(number: string, name: string)
    requires ' ' !in number
    ensures SplitStreet(number + " " + name) == (number, name)
  {
    var street := number + " " + name;
    assert street[|number|] == ' ';
    var r := SplitStreet(street);
    assert r.0 == street[..|r.0|] == number;
    assert r.1 == street[|number| + 1..] == name;
  }

  /** The JSON body `create_customer` posts. */
  function CreateCustomerPayload(firstName: string, lastName: string, address: map<string, string>): (p: CustomerPayload)
    ensures p.firstName == firstName && p.lastName == lastName
    ensures p.address.city == Get(address, "city")
    ensures p.address.state == Get(address, "state")
    ensures p.address.zip == Get(address, "zip")
    ensures "street" !in address ==> p.address.streetNumber == "" && p.address.streetName == ""
    ensures "street" in address && ' ' in address["street"] ==>
      address["street"] == p.address.streetNumber + " " + p.address.streetName
      && ' ' !in p.address.streetNumber
    ensures "street" in address && ' ' !in address["street"] ==>
      p.address.streetNumber == address["street"] && p.address.streetName == ""
  {
    var street := SplitStreet(Get(address, "street"));
    CustomerPayload(firstName, lastName,
      Address(street.0, street.1, Get(address, "city"), Get(address, "state"), Get(address, "zip")))
  }

  // ---------------------------------------------------------------------------
  // Banking data to a solver payload

  /** `d.get(field, 0)` on a record whose numbers are integers. */
  function Amount(d: map<string, int>, field: string): int {
    if field in d then d[field] else 0
  }

  /** `sum(int(d.get(field, 0)) for d in items)`. */
  function Total(items: seq<map<string, int>>, field: string): (r: int)
    ensures (forall i :: 0 <= i < |items| ==> Amount(items[i], field) >= 0) ==> r >= 0
    ensures (forall i :: 0 <= i < |items| ==> field !in items[i]) ==> r == 0
  {
    if items == [] then 0
    else Total(items[..|items| - 1], field) + Amount(items[|items| - 1], field)
  }

  lemma {:induction false} TotalConcat(a: seq<map<string, int>>, b: seq<map<string, int>>, field: string)
    ensures Total(a + b, field) == Total(a, field) + Total(b, field)
  {
    if b == [] {
      assert a + b == a;
    } else {
      var init := b[..|b| - 1];
      assert (a + b)[..|a + b| - 1] == a + init;
      TotalConcat(a, init, field);
    }
  }

  /** The order the accounts or bills arrive in does not change a total. */
  lemma TotalSwap(a: seq<map<string, int>>, b: seq<map<string, int>>, field: string)
    ensures Total(a + b, field) == Total(b + a, field)
  {
    TotalConcat(a, b, field);
    TotalConcat(b, a, field);
  }

  const Categories: seq<string> := ["bills", "discretionary", "savings"]

  /** `transform_nessie_to_constraints`. */
  function TransformNessieToConstraints(accounts: seq<map<string, int>>, bills: seq<map<string, int>>): (r: Solver.RawRequest)
    ensures |r.variables| == 3
    ensures forall i :: 0 <= i < 3 ==>
      r.variables[i] == Solver.RawVariable(Categories[i], 0, Total(accounts, "balance"))
    ensures |r.constraints| == 2
    ensures forall i :: 0 <= i < 2 ==>
      r.constraints[i].constraintType == Some("hard") && r.constraints[i].priority == Some(0)
    ensures r.constraints[0].expression == "bills + discretionary + savings <= " + IntToDecimal(Total(accounts, "balance"))
    ensures r.constraints[1].expression == "bills == " + IntToDecimal(Total(bills, "payment_amount"))
    ensures r.objective == Some(Solver.RawObjective("savings", "maximize"))
  {
    var totalBalance := Total(accounts, "balance");
    var totalBills := Total(bills, "payment_amount");
    Solver.RawRequest(
      [Solver.RawVariable("bills", 0, totalBalance),
       Solver.RawVariable("discretionary", 0, totalBalance),
       Solver.RawVariable("savings", 0, totalBalance)],
      [Solver.RawConstraint("bills + discretionary + savings <= " + IntToDecimal(totalBalance),
                            Some("hard"), Some(0), Some("Total allocation cannot exceed available balance")),
       Solver.RawConstraint("bills == " + IntToDecimal(totalBills),
                            Some("hard"), Some(0), Some("Must cover all bills"))],
      Some(Solver.RawObjective("savings", "maximize")))
  }

  /** The numbers written into the two constraint expressions read back as
      the balance total and the bills total. */
  lemma TransformNumbersReadBack(accounts: seq<map<string, int>>, bills: seq<map<string, int>>)
    ensures var r := TransformNessieToConstraints(accounts, bills);
      var e0, e1 := r.constraints[0].expression, r.constraints[1].expression;
      |e0| > 35 && |e1| > 9
      && e0[..35] == "bills + discretionary + savings <= " && e1[..9] == "bills == "
      && ParseInt(e0[35..]) == Total(accounts, "balance")
      && ParseInt(e1[9..]) == Total(bills, "payment_amount")
  {
    var r := TransformNessieToConstraints(accounts, bills);
    var e0, e1 := r.constraints[0].expression, r.constraints[1].expression;
    IntToDecimalRoundTrip(Total(accounts, "balance"));
    IntToDecimalRoundTrip(Total(bills, "payment_amount"));
    assert e0[35..] == IntToDecimal(Total(accounts, "balance"));
    assert e1[9..] == IntToDecimal(Total(bills, "payment_amount"));
  }

  /** The payload passes the solver's validation exactly when the balance
      total is not negative; otherwise the reported error is the first
      variable's bounds. */
  lemma TransformValidates(accounts: seq<map<string, int>>, bills: seq<map<string, int>>)
    ensures var total := Total(accounts, "balance");
      var v := Solver.Validate(TransformNessieToConstraints(accounts, bills));
      (v.Ok? <==> total >= 0)
      && (total < 0 ==> v == Err(Solver.BoundsViolation(0, total)))
  {
    var r := TransformNessieToConstraints(accounts, bills);
    Solver.ValidateVariablesExact(r.variables);
    Solver.ValidateConstraintsExact(r.constraints);
    assert Solver.TypeOk(r.constraints[0]) && Solver.TypeOk(r.constraints[1]);
    assert !Solver.BoundsOk(r.variables[0]) <==> Total(accounts, "balance") < 0;
  }

  lemma CategoriesAreNames()
    ensures forall i :: 0 <= i < 3 ==> IsIdentifier(Categories[i])
    ensures forall i, j :: 0 <= i < j < 3 ==> Categories[i] != Categories[j]
  {
    assert Categories[0][0] == 'b' && Categories[1][0] == 'd' && Categories[2][0] == 's';
  }

  /** When the payload validates, declaring its variables cannot fail: the
      three names are distinct identifiers. */
  lemma TransformDeclares(accounts: seq<map<string, int>>, bills: seq<map<string, int>>)
    requires Solver.Validate(TransformNessieToConstraints(accounts, bills)).Ok?
    ensures Solver.DeclError(Solver.Validate(TransformNessieToConstraints(accounts, bills)).value.variables).None?
  {
    var r := TransformNessieToConstraints(accounts, bills);
    var vs := Solver.ValidateVariables(r.variables);
    Solver.ValidateVariablesExact(r.variables);
    assert Solver.Validate(r).value.variables == vs.value;
    CategoriesDeclare(vs.value);
  }

  /** Three definitions named by the three categories declare without error. */
  lemma CategoriesDeclare(defs: seq<Solver.VariableDefinition>)
    requires |defs| == 3 && forall i :: 0 <= i < 3 ==> defs[i].name == Categories[i]
    ensures Solver.DeclError(defs).None?
  {
    CategoriesAreNames();
    Solver.DeclErrorExact(defs);
  }
}
