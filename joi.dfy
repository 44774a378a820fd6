/** The part of the schema validator's behaviour that the validation files
    rely on: an object schema lists its keys in order, each key a string rule
    that is required or optional and carries a label; validation stops at the
    first failing key (the default `abortEarly`), and keys the schema does not
    name are rejected afterwards (no `allowUnknown`). The error the callers
    read is the failing key's label. */
module Joi {

  /** The value found under one key of the input object. */
  datatype Field = Absent | Str(s: string) | NonString

  /** A string rule: its label, whether the key is required, and the test a
      present string must pass (length bounds, pattern, allowed values, ...). */
  datatype Rule = Rule(caption: string, required: bool, accepts: string -> bool)

  /** `true`, or the thrown error reduced to `details[0].context.label`. */
  datatype Check = Valid | Invalid(caption: string)

  /** Whether one key passes its rule. A string rule refuses a non-string and
      the empty string (which it reports as empty before any other rule). */
  predicate Admits(rule: Rule, f: Field)
  {
    match f
    case Absent => !rule.required
    case NonString => false
    case Str(s) => s != "" && rule.accepts(s)
  }

  /** The label of an unknown key: its own name, or "value" for the empty name. */
  function UnknownLabel(key: string): string
  {
    if key == "" then "value" else key
  }

  /** Validation of an object whose schema keys hold `fields` (in schema order)
      and whose other keys are `others` (in the object's own order), from the
      `k`-th schema key on. */
  function ValidateFrom(fields: seq<Field>, rules: seq<Rule>, others: seq<string>, k: nat): Check
    requires |fields| == |rules| && k <= |fields|
    decreases |fields| - k
  {
    if k == |fields| then
      if others == [] then Valid else Invalid(UnknownLabel(others[0]))
    else if !Admits(rules[k], fields[k]) then Invalid(rules[k].caption)
    else ValidateFrom(fields, rules, others, k + 1)
  }

  function Validate(fields: seq<Field>, rules: seq<Rule>, others: seq<string>): Check
    requires |fields| == |rules|
  {
    ValidateFrom(fields, rules, others, 0)
  }

  /** Every key from the `k`-th on passes its rule. */
  predicate AdmittedFrom(fields: seq<Field>, rules: seq<Rule>, k: nat)
    requires |fields| == |rules| && k <= |fields|
    decreases |fields| - k
  {
    k == |fields| || (Admits(rules[k], fields[k]) && AdmittedFrom(fields, rules, k + 1))
  }

  /** `AdmittedFrom` is the quantified statement it abbreviates. */
  lemma {:induction false} AdmittedFromAt(fields: seq<Field>, rules: seq<Rule>, k: nat)
    requires |fields| == |rules| && k <= |fields|
    ensures AdmittedFrom(fields, rules, k) <==> forall i :: k <= i < |fields| ==> Admits(rules[i], fields[i])
    decreases |fields| - k
  {
    if k < |fields| {
      AdmittedFromAt(fields, rules, k + 1);
    }
  }

  /** An object is valid exactly when every key passes and there is no other key. */
  lemma {:induction false} ValidateAccepts(fields: seq<Field>, rules: seq<Rule>, others: seq<string>, k: nat)
    requires |fields| == |rules| && k <= |fields|
    ensures ValidateFrom(fields, rules, others, k) == Valid <==> AdmittedFrom(fields, rules, k) && others == []
    decreases |fields| - k
  {
    if k < |fields| {
      ValidateAccepts(fields, rules, others, k + 1);
    }
  }

  /** The whole object in quantified form: valid exactly when every schema
      key passes its rule and there is no unknown key. */
  lemma ValidateAll(fields: seq<Field>, rules: seq<Rule>, others: seq<string>)
    requires |fields| == |rules|
    ensures Validate(fields, rules, others) == Valid
            <==> (forall i :: 0 <= i < |fields| ==> Admits(rules[i], fields[i])) && others == []
  {
    ValidateAccepts(fields, rules, others, 0);
    AdmittedFromAt(fields, rules, 0);
  }

  /** On failure, the label is that of the first failing key, or, when every
      key passes, that of the first unknown key. */
  lemma {:induction false} ValidateReportsFirst(fields: seq<Field>, rules: seq<Rule>, others: seq<string>, k: nat, i: nat)
    requires |fields| == |rules| && k <= i <= |fields|
    requires forall j :: k <= j < i ==> Admits(rules[j], fields[j])
    ensures i < |fields| && !Admits(rules[i], fields[i])
            ==> ValidateFrom(fields, rules, others, k) == Invalid(rules[i].caption)
    ensures i == |fields| && others != []
            ==> ValidateFrom(fields, rules, others, k) == Invalid(UnknownLabel(others[0]))
    decreases i - k
  {
    if k < i {
      ValidateReportsFirst(fields, rules, others, k + 1, i);
    }
  }

  /** When every rule has a label, so does every error. */
  lemma {:induction false} ValidateLabelsNonEmpty(fields: seq<Field>, rules: seq<Rule>, others: seq<string>, k: nat)
    requires |fields| == |rules| && k <= |fields|
    requires forall i :: 0 <= i < |rules| ==> rules[i].caption != ""
    ensures ValidateFrom(fields, rules, others, k).Invalid? ==> ValidateFrom(fields, rules, others, k).caption != ""
    decreases |fields| - k
  {
    if k < |fields| && Admits(rules[k], fields[k]) {
      ValidateLabelsNonEmpty(fields, rules, others, k + 1);
    }
  }

  /** A string of `lo` to `hi` characters (`.min(lo).max(hi)`). */
  predicate LengthBetween(s: string, lo: nat, hi: nat)
  {
    lo <= |s| <= hi
  }

  /** An ASCII letter or digit, the class `[a-zA-Z0-9]`. */
  predicate IsAlphanumeric(c: char)
  {
    'a' <= c <= 'z' || 'A' <= c <= 'Z' || '0' <= c <= '9'
  }

  /** The pattern `^[a-zA-Z0-9]{3,30}$`. */
  predicate PasswordPattern(s: string)
  {
    LengthBetween(s, 3, 30) && forall i :: 0 <= i < |s| ==> IsAlphanumeric(s[i])
  }

  /** `.valid('Male', 'Female', 'male', 'female')`. */
  predicate IsGender(s: string)
  {
    s == "Male" || s == "Female" || s == "male" || s == "female"
  }
}
