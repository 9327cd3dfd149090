/** Reading the calling user's identity from the attributes of their certificate. */
module DocflowUser {
  import opened Wrappers
  import opened GoErrors
  import opened DocflowCom

  datatype User = User(fio: string, position: string, role: string, creationDate: string, creatorLogin: string)

  /** The attribute names, in the order `GetUser` reads them. */
  const Attributes: seq<string> := ["fio", "position", "role", "creation_date", "creator_login"]

  /** What `cid.GetAttributeValue` reports for one attribute: the value and whether it is held, or an error. */
  datatype Lookup = Found(value: string) | NotHeld | LookupError(err: Error)

  /** The number of attributes read successfully before the first failing one (5 when none fails). */
  function ReadCount(lookup: string -> Lookup): (n: nat)
    ensures n <= 5
    ensures forall i :: 0 <= i < n ==> lookup(Attributes[i]).Found?
    ensures n < 5 ==> !lookup(Attributes[n]).Found?
  {
    if !lookup(Attributes[0]).Found? then 0
    else if !lookup(Attributes[1]).Found? then 1
    else if !lookup(Attributes[2]).Found? then 2
    else if !lookup(Attributes[3]).Found? then 3
    else if !lookup(Attributes[4]).Found? then 4
    else 5
  }

  /** The value stored for attribute `i`: read when it precedes the failing one, otherwise left empty. */
  function FieldValue(lookup: string -> Lookup, i: nat): string
    requires i < 5
  {
    if i < ReadCount(lookup) then lookup(Attributes[i]).value else ""
  }

  /** The response for an attribute that could not be read. */
  function FailureFor(name: string, l: Lookup): Response
    requires !l.Found?
  {
    if l.LookupError? then GetAttributeError(l.err, name) else NotPossessAttributeError(name)
  }

  /**
   * `GetUser`: the five attributes in order, stopping at the first lookup error
   * (`GetAttributeError`) or missing attribute (`NotPossessAttributeError`) and returning the
   * user filled so far; the call path is as it was.
   */
  method GetUser(fpath: FuncPath, lookup: string -> Lookup) returns (user: User, response: Response)
    modifies fpath
    ensures fpath.path == old(fpath.path)
    ensures user == User(FieldValue(lookup, 0), FieldValue(lookup, 1), FieldValue(lookup, 2),
      FieldValue(lookup, 3), FieldValue(lookup, 4))
    ensures var n := ReadCount(lookup);
      if n == 5 then response == SuccessMessageResponse("User was gotten from attributes.")
      else response == FailureFor(Attributes[n], lookup(Attributes[n]))
  {
    var element := fpath.PushBack("GetUser");
    user := User("", "", "", "", "");
    response := SuccessMessageResponse("User was gotten from attributes.");
    var l := lookup("fio");
    if !l.Found? {
      response := FailureFor("fio", l);
    } else {
      user := user.(fio := l.value);
      l := lookup("position");
      if !l.Found? {
        response := FailureFor("position", l);
      } else {
        user := user.(position := l.value);
        l := lookup("role");
        if !l.Found? {
          response := FailureFor("role", l);
        } else {
          user := user.(role := l.value);
          l := lookup("creation_date");
          if !l.Found? {
            response := FailureFor("creation_date", l);
          } else {
            user := user.(creationDate := l.value);
            l := lookup("creator_login");
            if !l.Found? {
              response := FailureFor("creator_login", l);
            } else {
              user := user.(creatorLogin := l.value);
            }
          }
        }
      }
    }
    assert fpath.path[..element] == old(fpath.path) && fpath.path[element + 1..] == [];
    fpath.Remove(element);
  }

  /** The user is returned with all five fields exactly when the returned response is a success. */
  lemma GetUserSucceedsIff(lookup: string -> Lookup)
    ensures ReadCount(lookup) == 5 <==> forall i :: 0 <= i < 5 ==> lookup(Attributes[i]).Found?
    ensures ReadCount(lookup) < 5 ==> IsFailure(FailureFor(Attributes[ReadCount(lookup)], lookup(Attributes[ReadCount(lookup)])))
  {
  }
}
