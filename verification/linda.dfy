/** The abstract tuple space: one bag of tuples on which out, rd and in act atomically. */
module Linda {
  import opened Types
  import opened Match
  import opened Store

  /** Ids play no part: an entry is a tuple with the name of its space. */
  type Bag = multiset<Entry>

  /** What a step shows to the outside; a silent step shows nothing. */
  datatype Label =
    | Silent
    | Put(entry: Entry)
    | Read(client: nat, space: string, template: Template, entry: Entry)
    | Taken(client: nat, space: string, template: Template, entry: Entry)
    | Removed(entries: Bag)

  ghost predicate Answers(space: string, template: Template, entry: Entry) {
    entry.space == space && Matches(template, entry.tuple)
  }

  ghost predicate Next(bag: Bag, event: Label, bag': Bag) {
    match event
    case Silent => bag' == bag
    case Put(entry) => bag' == bag + multiset{entry}
    case Read(_, space, template, entry) => Answers(space, template, entry) && entry in bag && bag' == bag
    case Taken(_, space, template, entry) =>
      Answers(space, template, entry) && entry in bag && bag' == bag - multiset{entry}
    case Removed(entries) => entries <= bag && bag' == bag - entries
  }

  /** A run of the abstract space from the empty bag. */
  ghost predicate IsLindaRun(bags: seq<Bag>, labels: seq<Label>) {
    && |bags| == |labels| + 1
    && bags[0] == multiset{}
    && forall i :: 0 <= i < |labels| ==> Next(bags[i], labels[i], bags[i + 1])
  }
}
