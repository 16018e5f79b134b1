/**
 * The `violations` map of a field-validation response: the binding result's
 * field errors folded, in order, into a map from field name to message with
 * `put`, so that a later error on a field replaces the message of an earlier one.
 */
module Violations {

  /** One field error of a binding result: the rejected field and its default message. */
  datatype FieldError = FieldError(field: string, defaultMessage: string)

  /** The names of the fields that `errors` reports on. */
  function FieldNames(errors: seq<FieldError>): set<string>
  {
    set i | 0 <= i < |errors| :: errors[i].field
  }

  /**
   * The map left by `put(field, defaultMessage)` for each error in turn,
   * starting from an empty map: the fold of the list from the left.
   */
  function LastWriteWins(errors: seq<FieldError>): map<string, string>
  {
    if errors == [] then map[]
    else
      var last := errors[|errors| - 1];
      LastWriteWins(errors[..|errors| - 1])[last.field := last.defaultMessage]
  }

  /** The position of the last error on `field`; -1 when no error names it. */
  function LastIndexOf(errors: seq<FieldError>, field: string): (i: int)
    ensures -1 <= i < |errors|
    ensures 0 <= i ==> errors[i].field == field
    ensures forall j | i < j < |errors| :: errors[j].field != field
  {
    if errors == [] then -1
    else if errors[|errors| - 1].field == field then |errors| - 1
    else LastIndexOf(errors[..|errors| - 1], field)
  }

  /**
   * Reference definition of the violations map, stated without a fold: every
   * field that some error names, mapped to the message of the last such error.
   */
  function LastMessages(errors: seq<FieldError>): map<string, string>
  {
    map field | field in FieldNames(errors) :: errors[LastIndexOf(errors, field)].defaultMessage
  }

  /** The fold has one key per distinct field name, and no key at all exactly when there is no error. */
  lemma {:induction false} LastWriteWinsKeys(errors: seq<FieldError>)
    ensures LastWriteWins(errors).Keys == FieldNames(errors)
    ensures LastWriteWins(errors) == map[] <==> errors == []
  {
    if errors != [] {
      var n := |errors| - 1;
      var prefix := errors[..n];
      LastWriteWinsKeys(prefix);
      forall field | field in FieldNames(errors)
        ensures field in FieldNames(prefix) + {errors[n].field}
      {
        var i :| 0 <= i < |errors| && errors[i].field == field;
        if i < n {
          assert prefix[i] == errors[i];
        }
      }
      forall field | field in FieldNames(prefix)
        ensures field in FieldNames(errors)
      {
        var i :| 0 <= i < |prefix| && prefix[i].field == field;
        assert errors[i] == prefix[i];
      }
      assert errors[n].field in LastWriteWins(errors);
    }
  }

  /** Appending an error moves the last position of its own field only. */
  lemma LastIndexOfSnoc(errors: seq<FieldError>, e: FieldError, field: string)
    ensures LastIndexOf(errors + [e], field)
            == if e.field == field then |errors| else LastIndexOf(errors, field)
  {
  }

  /** The fold computes the reference map: every named field holds the message of its last error. */
  lemma {:induction false} LastWriteWinsIsLastMessages(errors: seq<FieldError>)
    ensures LastWriteWins(errors) == LastMessages(errors)
  {
    if errors != [] {
      var n := |errors| - 1;
      var prefix, e := errors[..n], errors[n];
      assert errors == prefix + [e];
      LastWriteWinsIsLastMessages(prefix);
      LastWriteWinsKeys(errors);
      LastWriteWinsKeys(prefix);
      var folded, reference := LastWriteWins(errors), LastMessages(errors);
      assert folded.Keys == reference.Keys;
      forall field | field in folded
        ensures folded[field] == reference[field]
      {
        LastIndexOfSnoc(prefix, e, field);
        if field != e.field {
          assert prefix[LastIndexOf(prefix, field)] == errors[LastIndexOf(errors, field)];
        }
      }
    }
  }

  /**
   * The message of an error that no later error overrides is the field's value
   * in the end: any earlier message for that field is overwritten.
   */
  lemma LastErrorWins(errors: seq<FieldError>, j: nat)
    requires j < |errors|
    requires forall k | j < k < |errors| :: errors[k].field != errors[j].field
    ensures errors[j].field in LastWriteWins(errors)
    ensures LastWriteWins(errors)[errors[j].field] == errors[j].defaultMessage
  {
    LastWriteWinsIsLastMessages(errors);
    var i := LastIndexOf(errors, errors[j].field);
    assert i == j;
  }

  /**
   * Builds the violations map with a loop that puts each error's message
   * under its field name into an initially empty map.
   */
  method GetViolations(fieldErrors: seq<FieldError>) returns (violations: map<string, string>)
    ensures violations == LastWriteWins(fieldErrors)
    ensures violations.Keys == FieldNames(fieldErrors)
    ensures violations == LastMessages(fieldErrors)
  {
    violations := map[];
    for k := 0 to |fieldErrors|
      invariant violations == LastWriteWins(fieldErrors[..k])
    {
      var field := fieldErrors[k].field;
      var message := fieldErrors[k].defaultMessage;
      violations := violations[field := message];
      assert fieldErrors[..k + 1][..k] == fieldErrors[..k];
    }
    assert fieldErrors[..|fieldErrors|] == fieldErrors;
    LastWriteWinsKeys(fieldErrors);
    LastWriteWinsIsLastMessages(fieldErrors);
  }
}
