/** Route classification of a message by prefix. */
module RouteClassifier {

  datatype WorkType = Fast | DB

  predicate IsDb(dbPrefixes: seq<string>, msg: string) {
    exists i :: 0 <= i < |dbPrefixes| && dbPrefixes[i] <= msg
  }

  class Classifier {
    var fast: seq<string>
    var db: seq<string>

    constructor ()
      ensures fast == [] && db == []
    {
      fast, db := [], [];
    }

    method AddFast(prefix: string)
      modifies this`fast
      ensures fast == old(fast) + [prefix]
    {
      fast := fast + [prefix];
    }

    method AddDb(prefix: string)
      modifies this`db
      ensures db == old(db) + [prefix]
    {
      db := db + [prefix];
    }

    /** A DB prefix always wins, and a message without any known prefix is fast: the fast prefixes never
        change an answer. */
    method Classify(msg: string) returns (t: WorkType)
      ensures t == if IsDb(db, msg) then DB else Fast
      ensures t == DB <==> exists i :: 0 <= i < |db| && db[i] <= msg
    {
      var i := 0;
      while i < |db|
        invariant 0 <= i <= |db|
        invariant forall j :: 0 <= j < i ==> !(db[j] <= msg)
      {
        if db[i] <= msg {
          return DB;
        }
        i := i + 1;
      }
      var k := 0;
      while k < |fast|
        invariant 0 <= k <= |fast|
      {
        if fast[k] <= msg {
          return Fast;
        }
        k := k + 1;
      }
      t := Fast;
    }
  }
}
