/** The part of the priority-bus traffic that decides who becomes master, as words
    over letters.  Lane `i` of a `Lanes` value holds the letters waiting in the
    receive queue of device `i`, oldest first, for one direction of travel. */
module BusStreams {

  /** BBSY asserted, BBSY negated, SACK negated (towards the arbiter) and bus grant
      negated (away from the arbiter).  `Ask` stands for what leads to a grant: BR and SACK
      asserted towards the arbiter, a bus grant asserted away from it. */
  datatype Letter = BusyOn | BusyOff | SackOff | GrantOff | Ask

  type Lanes = seq<seq<Letter>>

  /** The letters that have still to pass device `x` on their way to the arbiter. */
  ghost function Leftward(ws: Lanes, x: nat): seq<Letter>
    decreases |ws| - x
  {
    if x >= |ws| then [] else ws[x] + Leftward(ws, x + 1)
  }

  /** The letters that have still to pass device `x` on their way to the chain's end. */
  ghost function Rightward(ws: Lanes, x: int): seq<Letter>
    requires x < |ws|
    decreases x + 1
  {
    if x < 0 then [] else ws[x] + Rightward(ws, x - 1)
  }

  ghost function Count(w: seq<Letter>, l: Letter): nat {
    if w == [] then 0 else (if w[0] == l then 1 else 0) + Count(w[1..], l)
  }

  ghost function Total(ws: Lanes, l: Letter): nat {
    if ws == [] then 0 else Count(ws[0], l) + Total(ws[1..], l)
  }

  // Counting

  lemma {:induction false} CountConcat(u: seq<Letter>, v: seq<Letter>, l: Letter)
    ensures Count(u + v, l) == Count(u, l) + Count(v, l)
  {
    if u == [] {
      assert u + v == v;
    } else {
      assert (u + v)[1..] == u[1..] + v;
      CountConcat(u[1..], v, l);
    }
  }

  lemma {:induction false} CountMember(w: seq<Letter>, l: Letter)
    ensures Count(w, l) > 0 <==> l in w
  {
    if w != [] {
      assert w == [w[0]] + w[1..];
      CountMember(w[1..], l);
    }
  }

  lemma {:induction false} TotalUpdate(ws: Lanes, i: nat, w: seq<Letter>, l: Letter)
    requires i < |ws|
    ensures Total(ws[i := w], l) == Total(ws, l) - Count(ws[i], l) + Count(w, l)
  {
    if i == 0 {
      assert ws[i := w][1..] == ws[1..];
    } else {
      assert ws[i := w][1..] == ws[1..][i - 1 := w];
      TotalUpdate(ws[1..], i - 1, w, l);
    }
  }

  /** Appending a letter to a lane counts once. */
  lemma TotalPush(ws: Lanes, i: nat, h: Letter, l: Letter)
    requires i < |ws|
    ensures Total(ws[i := ws[i] + [h]], l) == Total(ws, l) + if h == l then 1 else 0
  {
    CountConcat(ws[i], [h], l);
    assert Count([h], l) == (if h == l then 1 else 0) + Count([], l) by { assert [h][1..] == []; }
    TotalUpdate(ws, i, ws[i] + [h], l);
  }

  /** Dropping the oldest letter of a lane counts once. */
  lemma TotalPop(ws: Lanes, i: nat, l: Letter)
    requires i < |ws| && ws[i] != []
    ensures Total(ws[i := ws[i][1..]], l) == Total(ws, l) - if ws[i][0] == l then 1 else 0
  {
    TotalUpdate(ws, i, ws[i][1..], l);
  }

  lemma {:induction false} TotalMember(ws: Lanes, i: nat, l: Letter)
    requires i < |ws| && l in ws[i]
    ensures Total(ws, l) > 0
  {
    if i == 0 {
      CountMember(ws[0], l);
    } else {
      TotalMember(ws[1..], i - 1, l);
    }
  }

  lemma {:induction false} TotalZero(ws: Lanes, l: Letter)
    requires forall i :: 0 <= i < |ws| ==> ws[i] == []
    ensures Total(ws, l) == 0
  {
    if ws != [] {
      TotalZero(ws[1..], l);
    }
  }

  // Leftward words

  lemma {:induction false} LeftFrame(ws: Lanes, vs: Lanes, x: nat)
    requires |ws| == |vs| && forall k :: x <= k < |ws| ==> ws[k] == vs[k]
    ensures Leftward(ws, x) == Leftward(vs, x)
    decreases |ws| - x
  {
    if x < |ws| {
      LeftFrame(ws, vs, x + 1);
    }
  }

  lemma {:induction false} LeftSuffix(ws: Lanes, x: nat, y: nat) returns (pre: seq<Letter>)
    requires x <= y
    ensures Leftward(ws, x) == pre + Leftward(ws, y)
    decreases y - x
  {
    if x == y || x >= |ws| {
      pre := [];
    } else {
      var p := LeftSuffix(ws, x + 1, y);
      pre := ws[x] + p;
    }
  }

  lemma {:induction false} LeftHasLane(ws: Lanes, x: nat, l: Letter) returns (k: nat)
    requires l in Leftward(ws, x)
    ensures x <= k < |ws| && l in ws[k]
    decreases |ws| - x
  {
    if l in ws[x] {
      k := x;
    } else {
      k := LeftHasLane(ws, x + 1, l);
    }
  }

  lemma {:induction false} LaneInLeft(ws: Lanes, x: nat, l: Letter, k: nat)
    requires x <= k < |ws| && l in ws[k]
    ensures l in Leftward(ws, x)
    decreases k - x
  {
    if x < k {
      LaneInLeft(ws, x + 1, l, k);
    }
  }

  /** A letter of lane `x` or beyond is still to pass `x`, and conversely. */
  lemma LeftMember(ws: Lanes, x: nat, l: Letter)
    ensures l in Leftward(ws, x) <==> exists k :: x <= k < |ws| && l in ws[k]
  {
    hide Leftward;
    if l in Leftward(ws, x) {
      var k := LeftHasLane(ws, x, l);
    }
    forall k | x <= k < |ws| && l in ws[k] ensures l in Leftward(ws, x) {
      LaneInLeft(ws, x, l, k);
    }
  }

  /** Writing to the back of lane `j` extends the word of every device up to `j`, as
      long as nothing is waiting further out. */
  lemma {:induction false} LeftPush(ws: Lanes, j: nat, l: Letter, x: nat)
    requires j < |ws| && (x <= j ==> Leftward(ws, j + 1) == [])
    ensures Leftward(ws[j := ws[j] + [l]], x) == Leftward(ws, x) + if x <= j then [l] else []
    decreases |ws| - x
  {
    var vs := ws[j := ws[j] + [l]];
    if x > j {
      LeftFrame(ws, vs, x);
    } else if x == j {
      LeftFrame(ws, vs, j + 1);
    } else {
      LeftPush(ws, j, l, x + 1);
      assert Leftward(vs, x) == ws[x] + (Leftward(ws, x + 1) + [l]);
    }
  }

  /** Passing the oldest letter of lane `i` on to lane `i - 1` changes the word of
      device `i` only. */
  lemma {:induction false} LeftMove(ws: Lanes, i: nat, x: nat)
    requires 0 < i < |ws| && ws[i] != []
    ensures var vs := ws[i := ws[i][1..]][i - 1 := ws[i - 1] + [ws[i][0]]];
            if x == i then Leftward(ws, x) == [ws[i][0]] + Leftward(vs, x)
            else Leftward(ws, x) == Leftward(vs, x)
    decreases |ws| - x
  {
    var vs := ws[i := ws[i][1..]][i - 1 := ws[i - 1] + [ws[i][0]]];
    if x > i {
      LeftFrame(ws, vs, x);
    } else {
      LeftMove(ws, i, x + 1);
      if x == i {
        assert ws[i] == [ws[i][0]] + ws[i][1..];
        assert [ws[i][0]] + (vs[i] + Leftward(vs, i + 1)) == ([ws[i][0]] + vs[i]) + Leftward(vs, i + 1);
      } else if x == i - 1 {
        assert vs[x] + Leftward(vs, i) == ws[x] + ([ws[i][0]] + Leftward(vs, i));
      }
    }
  }

  /** Dropping the oldest letter of lane 0, which leaves for the arbiter. */
  lemma LeftPop(ws: Lanes, x: nat)
    requires |ws| > 0 && ws[0] != []
    ensures var vs := ws[0 := ws[0][1..]];
            if x == 0 then Leftward(ws, 0) == [ws[0][0]] + Leftward(vs, 0)
            else Leftward(ws, x) == Leftward(vs, x)
  {
    var vs := ws[0 := ws[0][1..]];
    if x == 0 {
      LeftFrame(ws, vs, 1);
      assert ws[0] == [ws[0][0]] + vs[0];
      assert [ws[0][0]] + (vs[0] + Leftward(vs, 1)) == ([ws[0][0]] + vs[0]) + Leftward(vs, 1);
    } else {
      LeftFrame(ws, vs, x);
    }
  }

  // Rightward words

  lemma {:induction false} RightFrame(ws: Lanes, vs: Lanes, x: int)
    requires x < |ws| == |vs| && forall k :: 0 <= k <= x ==> ws[k] == vs[k]
    ensures Rightward(ws, x) == Rightward(vs, x)
    decreases x + 1
  {
    if x >= 0 {
      RightFrame(ws, vs, x - 1);
    }
  }

  lemma {:induction false} RightSuffix(ws: Lanes, y: int, x: int) returns (pre: seq<Letter>)
    requires x <= y < |ws|
    ensures Rightward(ws, y) == pre + Rightward(ws, x)
    decreases y - x
  {
    if x == y || y < 0 {
      pre := [];
    } else {
      var p := RightSuffix(ws, y - 1, x);
      pre := ws[y] + p;
    }
  }

  lemma {:induction false} RightMember(ws: Lanes, x: int, l: Letter)
    requires x < |ws|
    ensures l in Rightward(ws, x) <==> exists k :: 0 <= k <= x && l in ws[k]
    decreases x + 1
  {
    if x >= 0 {
      RightMember(ws, x - 1, l);
    }
  }

  /** Writing to the back of lane `j`: the new letter stands before everything that is
      still on the arbiter's side of `j`. */
  lemma {:induction false} RightPush(ws: Lanes, j: nat, l: Letter, x: int) returns (pre: seq<Letter>)
    requires j < |ws| && x < |ws|
    ensures var vs := ws[j := ws[j] + [l]];
            if x < j then Rightward(vs, x) == Rightward(ws, x)
            else Rightward(ws, x) == pre + Rightward(ws, j - 1)
                 && Rightward(vs, x) == pre + [l] + Rightward(ws, j - 1)
    decreases x + 1
  {
    var vs := ws[j := ws[j] + [l]];
    pre := [];
    if x < j {
      RightFrame(ws, vs, x);
    } else if x == j {
      RightFrame(ws, vs, j - 1);
      pre := ws[j];
    } else {
      var p := RightPush(ws, j, l, x - 1);
      pre := ws[x] + p;
      assert ws[x] + (p + [l] + Rightward(ws, j - 1)) == pre + [l] + Rightward(ws, j - 1);
    }
  }

  /** Passing the oldest letter of lane `i` on to lane `i + 1`. */
  lemma {:induction false} RightMove(ws: Lanes, i: nat, x: int)
    requires i + 1 < |ws| && ws[i] != [] && x < |ws|
    ensures var vs := ws[i := ws[i][1..]][i + 1 := ws[i + 1] + [ws[i][0]]];
            if x == i then Rightward(ws, x) == [ws[i][0]] + Rightward(vs, x)
            else Rightward(ws, x) == Rightward(vs, x)
    decreases x + 1
  {
    var vs := ws[i := ws[i][1..]][i + 1 := ws[i + 1] + [ws[i][0]]];
    if x < i {
      RightFrame(ws, vs, x);
    } else {
      RightMove(ws, i, x - 1);
      if x == i {
        assert ws[i] == [ws[i][0]] + ws[i][1..];
        assert [ws[i][0]] + (vs[i] + Rightward(vs, i - 1)) == ([ws[i][0]] + vs[i]) + Rightward(vs, i - 1);
      } else if x == i + 1 {
        assert vs[x] + Rightward(vs, i) == ws[x] + ([ws[i][0]] + Rightward(vs, i));
      }
    }
  }

  /** Taking the oldest letter of lane `i` off the bus. */
  lemma {:induction false} RightPop(ws: Lanes, i: nat, x: int) returns (pre: seq<Letter>)
    requires i < |ws| && ws[i] != [] && x < |ws|
    ensures var vs := ws[i := ws[i][1..]];
            if x < i then Rightward(vs, x) == Rightward(ws, x)
            else Rightward(ws, x) == pre + [ws[i][0]] + Rightward(vs, i)
                 && Rightward(vs, x) == pre + Rightward(vs, i)
                 && (x == i ==> pre == [])
    decreases x + 1
  {
    var vs := ws[i := ws[i][1..]];
    pre := [];
    if x < i {
      RightFrame(ws, vs, x);
    } else if x == i {
      RightFrame(ws, vs, i - 1);
      assert ws[i] == [ws[i][0]] + ws[i][1..];
      assert [ws[i][0]] + (vs[i] + Rightward(vs, i - 1)) == ([ws[i][0]] + vs[i]) + Rightward(vs, i - 1);
    } else {
      var p := RightPop(ws, i, x - 1);
      pre := ws[x] + p;
      Regroup(ws[x], p, [ws[i][0]], Rightward(vs, i));
    }
  }

  lemma Regroup(u: seq<Letter>, p: seq<Letter>, m: seq<Letter>, w: seq<Letter>)
    ensures u + (p + m + w) == u + p + m + w && u + (p + w) == u + p + w
  {
  }
}
