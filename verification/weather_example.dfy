/** An example of two mirrored days: one rising from 1 to 10 and one falling from 10 to 1. */
module WeatherExample {
  import opened Reductions
  import opened Weather
  import WeatherProperties

  const RISING: seq<real> := [1.0, 2.0, 3.0, 4.0, 5.0, 6.0, 7.0, 8.0, 9.0, 10.0]
  const FALLING: seq<real> := [10.0, 9.0, 8.0, 7.0, 6.0, 5.0, 4.0, 3.0, 2.0, 1.0]
  const EXAMPLE: WeatherForecast := WeatherForecast([RISING, FALLING])

  lemma SumStep(s: seq<real>, i: nat)
    requires i < |s|
    ensures Sum(s[i..]) == s[i] + Sum(s[i + 1..])
  {
    assert s[i..][1..] == s[i + 1..];
  }

  lemma SumOfTen(s: seq<real>)
    requires |s| == 10
    ensures Sum(s) == s[0] + s[1] + s[2] + s[3] + s[4] + s[5] + s[6] + s[7] + s[8] + s[9]
  {
    assert s[0..] == s;
    SumStep(s, 0); SumStep(s, 1); SumStep(s, 2); SumStep(s, 3); SumStep(s, 4);
    SumStep(s, 5); SumStep(s, 6); SumStep(s, 7); SumStep(s, 8); SumStep(s, 9);
    assert s[10..] == [];
  }

  lemma ExampleIsStoredAsGiven()
    ensures FromRows([RISING, FALLING]) == Ok(EXAMPLE)
  {
    WeatherProperties.FromRowsKeepsGrid([RISING, FALLING]);
  }

  lemma ReadingsBetweenOneAndTen()
    ensures forall j :: 0 <= j < |RISING| ==> 1.0 <= RISING[j] <= 10.0
    ensures forall j :: 0 <= j < |FALLING| ==> 1.0 <= FALLING[j] <= 10.0
    ensures RISING[0] == 1.0 && RISING[9] == 10.0 && FALLING[0] == 10.0 && FALLING[9] == 1.0
  {
  }

  lemma ExampleMinAndMax()
    ensures EXAMPLE.MinAndMaxPerDay() == ([1.0, 1.0], [10.0, 10.0])
  {
    ReadingsBetweenOneAndTen();
    assert EXAMPLE.data[0] == RISING && EXAMPLE.data[1] == FALLING;
    var r := EXAMPLE.MinAndMaxPerDay();
    assert 1.0 in RISING && 1.0 in FALLING && 10.0 in RISING && 10.0 in FALLING;
    MinUnique(RISING, r.0[0], 1.0);
    MinUnique(FALLING, r.0[1], 1.0);
    MaxUnique(RISING, r.1[0], 10.0);
    MaxUnique(FALLING, r.1[1], 10.0);
    assert r.0 == [1.0, 1.0];
    assert r.1 == [10.0, 10.0];
  }

  lemma ExampleLargestDrop()
    ensures EXAMPLE.LargestDrop() == Ok(0.0)
  {
    SumOfTen(RISING);
    SumOfTen(FALLING);
    assert EXAMPLE.DayChange(0) == 0.0;
  }

  lemma ExampleMaxLastDay()
    ensures EXAMPLE.MaxLastKDays(1) == [10.0]
  {
    var r := EXAMPLE.MaxLastKDays(1);
    assert r[0] >= 10.0 by {
      assert FALLING[0] == 10.0;
    }
  }

  lemma ExampleWhatDay()
    ensures EXAMPLE.WhatDayIsThisFrom(RISING) == Ok(0)
  {
    assert FALLING != RISING by {
      assert FALLING[0] != RISING[0];
    }
    WeatherProperties.UniqueMatchFound(EXAMPLE, RISING, 0);
  }
}
