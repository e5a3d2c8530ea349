/** The older lasting-injuries resolver (`assets/js/lastingInjuriesEngine.js`): one flat
    list of injuries, a d66 roll and the first injury containing it. */
module LegacyInjuries {
  import opened Common
  import opened Dice
  import opened RangeMatch

  /** What `loadInjuries` may be handed: an array of injuries, or an object keyed by id. */
  datatype InjuriesInput = AsArray(rows: seq<Row>) | AsObject(entries: seq<(string, Row)>)

  /** A resolved injury: the d66 rolled and the injury found or the placeholder. */
  datatype InjuryResult = InjuryResult(roll: int, injury: Row)

  /** The placeholder for a roll no injury contains; its random effect is `null` (""). */
  const UnknownInjury := Row(None, "Unknown", [], "No injury found for this roll.", "", "", None)

  class LegacyInjuries {
    /** The loaded injuries, in the order they are searched. */
    var injuries: seq<Row>

    constructor()
      ensures injuries == []
    {
      injuries := [];
    }

    /** `loadInjuries(injuriesData)`: an array is stored as it is; an object becomes the
        list of its entries in order, each tagged with its key as id. */
    method LoadInjuries(data: InjuriesInput)
      modifies this
      ensures data.AsArray? ==> injuries == data.rows
      ensures data.AsObject? ==> (|injuries| == |data.entries| &&
        forall i :: 0 <= i < |injuries| ==> injuries[i] == Tag(data.entries[i].0, data.entries[i].1))
    {
      match data
      case AsArray(rows) => injuries := rows;
      case AsObject(entries) => injuries := TagAll(entries);
    }

    /** `findInjury(roll)`: the first loaded injury whose values contain the roll. */
    function FindInjury(roll: int): (r: Option<Row>)
      reads this
      ensures r.None? <==> forall i :: 0 <= i < |injuries| ==> !InRange(Some(roll), injuries[i].values)
      ensures r.Some? ==> (exists i :: 0 <= i < |injuries| && injuries[i] == r.value &&
                             InRange(Some(roll), injuries[i].values) &&
                             forall j :: 0 <= j < i ==> !InRange(Some(roll), injuries[j].values))
    {
      FirstMatch(Some(roll), injuries)
    }

    /** `resolveInjury()`: a d66 and the injury it finds, or the `'Unknown'` placeholder;
        the injury is never missing. */
    function ResolveInjury(tape: Tape, pos: nat): (r: Rolled<InjuryResult>)
      reads this
      ensures r.value.roll == D66(tape, pos) && 11 <= r.value.roll <= 66 && r.next == pos + 2
      ensures FindInjury(r.value.roll).Some? ==> r.value.injury == FindInjury(r.value.roll).value
      ensures FindInjury(r.value.roll).None? ==>
        r.value.injury.name == "Unknown" && r.value.injury.randomEffect == "" &&
        r.value.injury.fixedEffect == "No injury found for this roll."
    {
      var roll := D66(tape, pos);
      Rolled(InjuryResult(roll, FindInjury(roll).GetOr(UnknownInjury)), pos + 2)
    }
  }

  /** Loading an object and looking a roll up finds the same injury as looking it up in
      the object's entries directly, id included; an earlier entry wins over a later one. */
  lemma {:induction false} LoadedObjectFindsFirstEntry(entries: seq<(string, Row)>, roll: int, i: nat)
    requires i < |entries| && InRange(Some(roll), entries[i].1.values)
    requires forall j :: 0 <= j < i ==> !InRange(Some(roll), entries[j].1.values)
    ensures FirstMatch(Some(roll), TagAll(entries)) == Some(Tag(entries[i].0, entries[i].1))
  {
    var rows := TagAll(entries);
    assert forall j :: 0 <= j < |entries| ==> rows[j].values == entries[j].1.values;
    FirstMatchAt(Some(roll), rows, i);
  }
}
