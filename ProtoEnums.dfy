/**
  Setting an enum-typed protobuf field by name (`_set_enum_field_by_preferred_names`
  in kitti_to_mcap.py): the candidates are tried in order, each compared
  case-insensitively with the names of the enum's values, and the first
  that names a value sets the field to that value's number.
*/
module ProtoEnums {
  import opened Wrappers
  import opened Text

  /** A value of an enum type: its name and number. */
  datatype EnumValue = EnumValue(name: string, number: int)

  /** A field of a message type, with its enum type's values when it is enum-typed. */
  datatype FieldDescriptor = FieldDescriptor(enumValues: Option<seq<EnumValue>>)

  datatype EnumError =
    /** The message has no such field, or it is not enum-typed. */
    | NotAnEnumField(field: string)
    /** No candidate names a value of the field's enum type. */
    | NoMatchingValue(field: string)

  /**
    The lower-cased name of each value mapped to its number, built in the
    order of the values, so that of two values whose names differ only in
    case the later one's number is kept.
  */
  function NameToNumber(values: seq<EnumValue>): map<string, int>
    decreases |values|
  {
    if values == [] then map[]
    else
      var last := values[|values| - 1];
      NameToNumber(values[..|values| - 1])[Lower(last.name) := last.number]
  }

  /** The table holds exactly the lower-cased names, each with the number of its last value. */
  lemma {:induction false} NameToNumberSpec(values: seq<EnumValue>, key: string)
    ensures key in NameToNumber(values) <==> exists i :: 0 <= i < |values| && Lower(values[i].name) == key
    ensures forall i :: 0 <= i < |values| && Lower(values[i].name) == key &&
                        (forall j :: i < j < |values| ==> Lower(values[j].name) != key) ==>
                          NameToNumber(values)[key] == values[i].number
    decreases |values|
  {
    if values != [] {
      var init := values[..|values| - 1];
      NameToNumberSpec(init, key);
      assert forall i :: 0 <= i < |init| ==> init[i] == values[i];
    }
  }

  /** The number of the first candidate whose lower-cased form is in the table. */
  function PreferredNumber(table: map<string, int>, candidates: seq<string>): Option<int>
    decreases |candidates|
  {
    if candidates == [] then None
    else if Lower(candidates[0]) in table then Some(table[Lower(candidates[0])])
    else PreferredNumber(table, candidates[1..])
  }

  /** No candidate matches: nothing is chosen. */
  lemma {:induction false} NoCandidateMatches(table: map<string, int>, candidates: seq<string>)
    ensures PreferredNumber(table, candidates).None? <==> forall i :: 0 <= i < |candidates| ==> Lower(candidates[i]) !in table
    decreases |candidates|
  {
    if candidates != [] {
      NoCandidateMatches(table, candidates[1..]);
      assert forall i :: 1 <= i < |candidates| ==> candidates[i] == candidates[1..][i - 1];
    }
  }

  /** The first matching candidate wins; later candidates are not consulted. */
  lemma {:induction false} FirstMatchingCandidateWins(table: map<string, int>, candidates: seq<string>, i: nat)
    requires i < |candidates| && Lower(candidates[i]) in table
    requires forall j :: 0 <= j < i ==> Lower(candidates[j]) !in table
    ensures PreferredNumber(table, candidates) == Some(table[Lower(candidates[i])])
    decreases i
  {
    if i > 0 {
      assert candidates[1..][i - 1] == candidates[i];
      FirstMatchingCandidateWins(table, candidates[1..], i - 1);
    }
  }

  /** The choice `_set_enum_field_by_preferred_names` makes for `field` of a message with these fields. */
  function EnumChoice(fields: map<string, FieldDescriptor>, field: string, candidates: seq<string>): Result<int, EnumError> {
    if field !in fields || fields[field].enumValues.None? then Err(NotAnEnumField(field))
    else match PreferredNumber(NameToNumber(fields[field].enumValues.value), candidates)
      case None => Err(NoMatchingValue(field))
      case Some(n) => Ok(n)
  }

  /**
    A candidate and a value name that agree up to case select that value:
    when the first candidate matching any value is `candidates[i]`, and
    `values[k]` is the last value with its lower-cased name, the field is
    set to `values[k]`'s number.
  */
  lemma ChoiceIsCaseInsensitive(fields: map<string, FieldDescriptor>, field: string, candidates: seq<string>, i: nat, k: nat)
    requires field in fields && fields[field].enumValues.Some?
    requires var values := fields[field].enumValues.value;
      && i < |candidates| && k < |values| && Lower(candidates[i]) == Lower(values[k].name)
      && (forall j :: k < j < |values| ==> Lower(values[j].name) != Lower(values[k].name))
    requires forall j :: 0 <= j < i ==> Lower(candidates[j]) !in NameToNumber(fields[field].enumValues.value)
    ensures EnumChoice(fields, field, candidates) == Ok(fields[field].enumValues.value[k].number)
  {
    var values := fields[field].enumValues.value;
    NameToNumberSpec(values, Lower(candidates[i]));
    FirstMatchingCandidateWins(NameToNumber(values), candidates, i);
  }

  /** Candidates that agree up to case make the same choice. */
  lemma {:induction false} CandidateCaseIrrelevant(table: map<string, int>, a: seq<string>, b: seq<string>)
    requires |a| == |b| && forall i :: 0 <= i < |a| ==> Lower(a[i]) == Lower(b[i])
    ensures PreferredNumber(table, a) == PreferredNumber(table, b)
    decreases |a|
  {
    if a != [] {
      CandidateCaseIrrelevant(table, a[1..], b[1..]);
    }
  }

  /** A protobuf message: the fields of its type, and the enum fields assigned so far with their numbers. */
  class ProtoMessage {
    const descriptorFields: map<string, FieldDescriptor>
    var enumFields: map<string, int>

    constructor (descriptorFields: map<string, FieldDescriptor>)
      ensures this.descriptorFields == descriptorFields && enumFields == map[]
    {
      this.descriptorFields := descriptorFields;
      enumFields := map[];
    }

    /**
      `_set_enum_field_by_preferred_names(msg, field, candidates)`: assigns
      the chosen number, or raises and leaves the message as it was.
    */
    method SetEnumFieldByPreferredNames(field: string, candidates: seq<string>) returns (res: Result<(), EnumError>)
      modifies this
      ensures var choice := EnumChoice(descriptorFields, field, candidates);
        && (choice.Ok? ==> res.Ok? && enumFields == old(enumFields)[field := choice.value])
        && (choice.Err? ==> res == Err(choice.error) && enumFields == old(enumFields))
    {
      if field !in descriptorFields || descriptorFields[field].enumValues.None? {
        return Err(NotAnEnumField(field));
      }
      var table := NameToNumber(descriptorFields[field].enumValues.value);
      for n := 0 to |candidates|
        invariant PreferredNumber(table, candidates[n..]) == PreferredNumber(table, candidates)
        invariant enumFields == old(enumFields)
      {
        assert candidates[n..][1..] == candidates[n + 1..];
        var key := Lower(candidates[n]);
        if key in table {
          enumFields := enumFields[field := table[key]];
          return Ok(());
        }
      }
      return Err(NoMatchingValue(field));
    }
  }
}
