/** Django-style `(id, text)` choice lists, shared by the event forms and models. */
module Choices {

  /** One entry of a `choices=` list: the stored key and the label shown to the user. */
  datatype Choice = Choice(id: string, text: string)

  /** The stored keys of a choice list, in list order. */
  function Ids(cs: seq<Choice>): (ids: seq<string>)
    ensures |ids| == |cs|
    ensures forall i :: 0 <= i < |cs| ==> ids[i] == cs[i].id
  {
    seq(|cs|, i requires 0 <= i < |cs| => cs[i].id)
  }

  /** Every key fits a `CharField` whose `max_length` is `width`. */
  predicate KeysFit(cs: seq<Choice>, width: nat)
  {
    forall i :: 0 <= i < |cs| ==> |cs[i].id| <= width
  }

  /** No key is listed twice. */
  predicate DistinctIds(cs: seq<Choice>)
  {
    forall i, j :: 0 <= i < j < |cs| ==> cs[i].id != cs[j].id
  }
}
