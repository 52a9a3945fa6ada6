// Appending one element at a time appends them all. Stated once per length, so
// that a writer's proof does not have to look inside the lines it writes.
module Appending {

  lemma Join2<T>(ts: seq<T>, s: seq<T>)
    requires |s| == 2
    ensures ts + [s[0]] + [s[1]] == ts + s
  {
  }

  lemma Join3<T>(ts: seq<T>, s: seq<T>)
    requires |s| == 3
    ensures ts + [s[0]] + [s[1]] + [s[2]] == ts + s
  {
  }

  lemma Join4<T>(ts: seq<T>, s: seq<T>)
    requires |s| == 4
    ensures ts + [s[0]] + [s[1]] + [s[2]] + [s[3]] == ts + s
  {
  }

  lemma Join5<T>(ts: seq<T>, s: seq<T>)
    requires |s| == 5
    ensures ts + [s[0]] + [s[1]] + [s[2]] + [s[3]] + [s[4]] == ts + s
  {
  }

  lemma Join6<T>(ts: seq<T>, s: seq<T>)
    requires |s| == 6
    ensures ts + [s[0]] + [s[1]] + [s[2]] + [s[3]] + [s[4]] + [s[5]] == ts + s
  {
  }

  lemma Join10<T>(ts: seq<T>, s: seq<T>)
    requires |s| == 10
    ensures ts + [s[0]] + [s[1]] + [s[2]] + [s[3]] + [s[4]] + [s[5]] + [s[6]] + [s[7]] + [s[8]] + [s[9]] == ts + s
  {
  }

  lemma Join11<T>(ts: seq<T>, s: seq<T>)
    requires |s| == 11
    ensures ts + [s[0]] + [s[1]] + [s[2]] + [s[3]] + [s[4]] + [s[5]] + [s[6]] + [s[7]] + [s[8]] + [s[9]]
            + [s[10]] == ts + s
  {
  }

  lemma Join12<T>(ts: seq<T>, s: seq<T>)
    requires |s| == 12
    ensures ts + [s[0]] + [s[1]] + [s[2]] + [s[3]] + [s[4]] + [s[5]] + [s[6]] + [s[7]] + [s[8]] + [s[9]]
            + [s[10]] + [s[11]] == ts + s
  {
  }

  lemma JoinParts<T>(ts: seq<T>, a: seq<T>, b: seq<T>, c: seq<T>, d: seq<T>, e: seq<T>, f: seq<T>, g: seq<T>)
    ensures ts + a + b == ts + (a + b)
    ensures ts + a + b + c == ts + (a + b + c)
    ensures ts + a + b + c + d == ts + (a + b + c + d)
    ensures ts + a + b + c + d + e + f == ts + (a + b + c + d + e + f)
    ensures ts + a + b + c + d + e + f + g == ts + (a + b + c + d + e + f + g)
  {
  }
}
