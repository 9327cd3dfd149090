/** The hello-world contract: a greeting that counts how often it was given. */
module HelloWorld {
  import opened GoInts
  import opened GoErrors
  import opened Wrappers

  /** The greeting text, stray apostrophe included. */
  function Greeting(name: string): (g: string)
    ensures |g| == |name| + 13 && g[..6] == "Hello " && g[6..6 + |name|] == name && g[6 + |name|..] == "' world"
  {
    "Hello " + name + "' world"
  }

  class HelloWorld {
    /** Go's `int`: 64 bits wide. */
    var greeted: int64

    /** `New`: nobody greeted yet. */
    constructor ()
      ensures greeted == 0
    {
      greeted := 0;
    }

    /** `Greet`: one more greeting counted, the greeting returned, never an error. */
    method Greet(name: string) returns (r: string, err: Option<Error>)
      modifies this
      ensures greeted == IncInt64(old(greeted))
      ensures r == Greeting(name) && err == None
    {
      greeted := IncInt64(greeted);
      return Greeting(name), None;
    }
  }

  /** `n` greetings from a new contract count `n` (below the `int64` limit). */
  method GreetTimes(names: seq<string>) returns (hw: HelloWorld, replies: seq<string>)
    requires |names| < TwoTo63
    ensures hw.greeted == |names|
    ensures |replies| == |names| && forall i :: 0 <= i < |names| ==> replies[i] == Greeting(names[i])
  {
    hw := new HelloWorld();
    replies := [];
    for i := 0 to |names|
      invariant hw.greeted == i
      invariant |replies| == i && forall j :: 0 <= j < i ==> replies[j] == Greeting(names[j])
    {
      var r, _ := hw.Greet(names[i]);
      replies := replies + [r];
    }
  }
}
