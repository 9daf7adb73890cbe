// Karpenter's label requirements, as sets of values.
module Scheduling {

  // OneOf({}) is DoesNotExist, Anything is Exists.
  datatype Requirement = Anything | OneOf(values: set<string>)
  {
    predicate Has(v: string) { Anything? || v in values }
  }

  type Requirements = map<string, Requirement>

  // The two have a value in common, or both ask for the label's absence.
  predicate Meets(mine: Requirement, theirs: Requirement) {
    match (mine, theirs)
    case (OneOf(a), OneOf(b)) => a * b != {} || (a == {} && b == {})
    case (OneOf(a), Anything) => a != {}
    case (Anything, OneOf(b)) => b != {}
    case (Anything, Anything) => true
  }

  // That is: some value satisfies both, or both ask for absence.
  lemma MeetsIf(mine: Requirement, theirs: Requirement)
    ensures Meets(mine, theirs)
            <==> (exists v :: mine.Has(v) && theirs.Has(v)) || (mine == OneOf({}) && theirs == OneOf({}))
  {
    match (mine, theirs)
    case (OneOf(a), OneOf(b)) =>
      assert forall v :: v in a && v in b ==> v in a * b;
      if v :| v in a * b { assert mine.Has(v) && theirs.Has(v); }
    case (OneOf(a), Anything) => if v :| v in a { assert mine.Has(v) && theirs.Has(v); }
    case (Anything, OneOf(b)) => if v :| v in b { assert mine.Has(v) && theirs.Has(v); }
    case (Anything, Anything) => assert mine.Has("") && theirs.Has("");
  }

  // Requirements.Compatible, where labels I do not define are let through when
  // they are well known or asked to be absent.
  predicate Compatible(mine: Requirements, theirs: Requirements, wellKnown: set<string>) {
    forall k :: k in theirs ==>
      if k in mine then Meets(mine[k], theirs[k]) else k in wellKnown || theirs[k] == OneOf({})
  }
}
