/**
 * Email validation and customer filtering of data_utils.py, and the inline
 * validation loop duplicated in `process_new_customers`,
 * `process_returning_customers` and `process_vip_customers` of
 * customer_analysis.py, which these helpers factor out.
 *
 * A customer table is a sequence of rows in table order; a row is its
 * `email` cell plus the other columns, which the filter never looks at.
 */
module DataUtils {

  /** One customer row: the `email` column and every other column by name. */
  datatype Customer = Customer(email: string, otherColumns: map<string, string>)

  /**
   * The email test written inline in customer_analysis.py: '@' and '.' are
   * tested first, and only then, in a nested test, the length.
   */
  function InlineEmailCheck(email: string): bool
  {
    if '@' in email && '.' in email then
      if |email| > 5 then true else false
    else
      false
  }

  /**
   * `validate_email`: the address holds '@', holds '.', and is longer than 5.
   * It accepts exactly what the nested inline test accepted, and nothing of
   * at most 5 characters.
   */
  predicate ValidateEmail(email: string): (valid: bool)
    ensures valid == InlineEmailCheck(email)
    ensures |email| <= 5 ==> !valid
  {
    '@' in email && '.' in email && |email| > 5
  }

  /** No string of at most 5 characters is accepted, whatever it holds. */
  lemma ShortEmailRejected(email: string)
    requires |email| <= 5
    ensures !ValidateEmail(email)
  {
  }

  /** "a@b.c" has both marks but only 5 characters; "ab@c.de" passes. */
  lemma ValidateEmailExamples()
    ensures !ValidateEmail("a@b.c")
    ensures ValidateEmail("ab@c.de")
    ensures !ValidateEmail("customer.example.com")
  {
    assert "ab@c.de"[2] == '@' && "ab@c.de"[4] == '.';
    assert "a@b.c"[1] == '@';
    assert forall i :: 0 <= i < |"customer.example.com"| ==> "customer.example.com"[i] != '@';
  }

  /**
   * Reference definition of `validate_customer_data`: the rows whose email
   * passes `validate_email`, in table order.
   */
  function ValidRows(customers: seq<Customer>): (kept: seq<Customer>)
    ensures |kept| <= |customers|
    ensures forall i :: 0 <= i < |kept| ==> ValidateEmail(kept[i].email)
  {
    if customers == [] then []
    else
      var last := customers[|customers| - 1];
      ValidRows(customers[..|customers| - 1]) + (if ValidateEmail(last.email) then [last] else [])
  }

  /** A row is kept if and only if it is in the table and its email is valid. */
  lemma {:induction false} ValidRowsMembership(customers: seq<Customer>, c: Customer)
    ensures c in ValidRows(customers) <==> c in customers && ValidateEmail(c.email)
  {
    if customers != [] {
      var init := customers[..|customers| - 1];
      ValidRowsMembership(init, c);
      assert customers == init + [customers[|customers| - 1]];
    }
  }

  /**
   * Positions of the rows with a valid email, in table order. The rebuilt
   * DataFrame keeps each kept row's original index label; under the default
   * RangeIndex that `read_csv` gives, those labels are these positions.
   */
  function KeptIndices(customers: seq<Customer>): (ks: seq<nat>)
    ensures forall k :: 0 <= k < |ks| ==> ks[k] < |customers|
    ensures forall a, b :: 0 <= a < b < |ks| ==> ks[a] < ks[b]
  {
    if customers == [] then []
    else
      var n := |customers| - 1;
      KeptIndices(customers[..n]) + (if ValidateEmail(customers[n].email) then [n] else [])
  }

  /** The result has one row per kept position. */
  lemma {:induction false} ValidRowsLength(customers: seq<Customer>)
    ensures |ValidRows(customers)| == |KeptIndices(customers)|
  {
    if customers != [] {
      ValidRowsLength(customers[..|customers| - 1]);
    }
  }

  /**
   * The k-th row of the result is, unchanged, the row at the k-th kept
   * position; as those positions increase, the rows keep their relative order.
   */
  lemma {:induction false} ValidRowsOrder(customers: seq<Customer>, k: nat)
    requires k < |KeptIndices(customers)|
    ensures k < |ValidRows(customers)|
    ensures ValidRows(customers)[k] == customers[KeptIndices(customers)[k]]
  {
    ValidRowsLength(customers);
    var n := |customers| - 1;
    var init := customers[..n];
    ValidRowsLength(init);
    if k < |KeptIndices(init)| {
      ValidRowsOrder(init, k);
      assert ValidRows(customers)[k] == ValidRows(init)[k];
      assert KeptIndices(customers)[k] == KeptIndices(init)[k];
    }
  }

  /** A position is kept if and only if the email of its row is valid. */
  lemma {:induction false} KeptIndicesExactly(customers: seq<Customer>, i: nat)
    requires i < |customers|
    ensures i in KeptIndices(customers) <==> ValidateEmail(customers[i].email)
  {
    var n := |customers| - 1;
    var init := customers[..n];
    if i < n {
      KeptIndicesExactly(init, i);
      assert init[i] == customers[i];
      assert n !in KeptIndices(init);
    }
  }

  /** A table whose every email is valid passes through unchanged. */
  lemma {:induction false} ValidRowsOfValid(customers: seq<Customer>)
    requires forall i :: 0 <= i < |customers| ==> ValidateEmail(customers[i].email)
    ensures ValidRows(customers) == customers
  {
    if customers != [] {
      var n := |customers| - 1;
      ValidRowsOfValid(customers[..n]);
      assert customers[..n] + [customers[n]] == customers;
    }
  }

  /** Validating an already validated table returns it unchanged. */
  lemma ValidRowsIdempotent(customers: seq<Customer>)
    ensures ValidRows(ValidRows(customers)) == ValidRows(customers)
  {
    ValidRowsOfValid(ValidRows(customers));
  }

  /** `validate_customer_data`: appends each row whose email passes. */
  method ValidateCustomerData(customers: seq<Customer>) returns (validCustomers: seq<Customer>)
    ensures validCustomers == ValidRows(customers)
  {
    validCustomers := [];
    var i := 0;
    while i < |customers|
      invariant 0 <= i <= |customers|
      invariant validCustomers == ValidRows(customers[..i])
    {
      assert customers[..i + 1][..i] == customers[..i];
      var row := customers[i];
      if ValidateEmail(row.email) {
        validCustomers := validCustomers + [row];
      }
      i := i + 1;
    }
    assert customers[..i] == customers;
  }

  /**
   * The validation loop duplicated inline in `process_new_customers`,
   * `process_returning_customers` and `process_vip_customers`: '@' and '.'
   * tested first, then the length in a nested test. It keeps exactly the rows
   * `validate_customer_data` keeps.
   */
  method FilterCustomersInline(customers: seq<Customer>) returns (validCustomers: seq<Customer>)
    ensures validCustomers == ValidRows(customers)
  {
    validCustomers := [];
    var i := 0;
    while i < |customers|
      invariant 0 <= i <= |customers|
      invariant validCustomers == ValidRows(customers[..i])
    {
      assert customers[..i + 1][..i] == customers[..i];
      var email := customers[i].email;
      if '@' in email && '.' in email {
        if |email| > 5 {
          validCustomers := validCustomers + [customers[i]];
        }
      }
      i := i + 1;
    }
    assert customers[..i] == customers;
  }
}
