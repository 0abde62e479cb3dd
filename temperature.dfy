/**
 * The temperature converter of old_public/blog/2022/09/05/section1.js: a
 * store of `celsius` and `fahrenheit` behind the same re-render-on-change
 * Proxy, and two change handlers that each write both fields. Inputs are
 * modelled as exact real numbers.
 */
module TemperatureWidget {

  /** `c * (9/5) + 32` (section1.js:29). */
  function ToFahrenheit(c: real): real
  {
    c * (9.0 / 5.0) + 32.0
  }

  /** `(f - 32) * (5/9)` (section1.js:33). */
  function ToCelsius(f: real): real
  {
    (f - 32.0) * (5.0 / 9.0)
  }

  /** Converting to Fahrenheit and back gives the temperature entered. */
  lemma CelsiusRoundTrip(c: real)
    ensures ToCelsius(ToFahrenheit(c)) == c
  {
  }

  /** Converting to Celsius and back gives the temperature entered. */
  lemma FahrenheitRoundTrip(f: real)
    ensures ToFahrenheit(ToCelsius(f)) == f
  {
  }

  /** The two fields describe the same temperature. */
  predicate Consistent(c: real, f: real)
  {
    f == ToFahrenheit(c)
  }

  /** Consistency read either way round: each field is the conversion of the other. */
  lemma ConsistentEitherWay(c: real, f: real)
    ensures Consistent(c, f) <==> c == ToCelsius(f)
  {
    if c == ToCelsius(f) {
      FahrenheitRoundTrip(f);
    }
  }

  /** Different temperatures have different readings in the other scale. */
  lemma ToFahrenheitInjective(c: real, d: real)
    ensures ToFahrenheit(c) == ToFahrenheit(d) <==> c == d
  {
  }

  /** The initial store 0 °C / 32 °F (section1.js:6-9) is consistent. */
  lemma InitialConsistent()
    ensures Consistent(0.0, 32.0) && ToCelsius(32.0) == 0.0
  {
  }

  class Thermometer {
    var celsius: real
    var fahrenheit: real
    /** `inputCelsius.value` and `inputFahrenheit.value`. */
    ghost var shownCelsius: real
    ghost var shownFahrenheit: real
    ghost var renders: nat

    /** Both inputs show the store, and the store holds one temperature. */
    ghost predicate Valid()
      reads this
    {
      shownCelsius == celsius && shownFahrenheit == fahrenheit && Consistent(celsius, fahrenheit)
    }

    /** The initial store and `render(state)` (section1.js:6-9, 37). */
    constructor ()
      ensures Valid() && celsius == 0.0 && fahrenheit == 32.0 && renders == 1
    {
      celsius, fahrenheit := 0.0, 32.0;
      shownCelsius, shownFahrenheit := 0.0, 0.0;
      renders := 0;
      new;
      Render();
    }

    /** `render` (section1.js:22-25). */
    method Render()
      modifies this
      ensures shownCelsius == celsius && shownFahrenheit == fahrenheit && renders == old(renders) + 1
      ensures celsius == old(celsius) && fahrenheit == old(fahrenheit)
    {
      shownCelsius, shownFahrenheit := celsius, fahrenheit;
      renders := renders + 1;
    }

    /** The `set` trap for `celsius` (section1.js:11-18). */
    method SetCelsius(value: real)
      modifies this
      ensures celsius == value && fahrenheit == old(fahrenheit)
      ensures old(celsius) != value ==> shownCelsius == celsius && shownFahrenheit == fahrenheit && renders == old(renders) + 1
      ensures old(celsius) == value ==>
        shownCelsius == old(shownCelsius) && shownFahrenheit == old(shownFahrenheit) && renders == old(renders)
    {
      if celsius != value {
        celsius := value;
        Render();
      }
    }

    /** The `set` trap for `fahrenheit` (section1.js:11-18). */
    method SetFahrenheit(value: real)
      modifies this
      ensures fahrenheit == value && celsius == old(celsius)
      ensures old(fahrenheit) != value ==> shownCelsius == celsius && shownFahrenheit == fahrenheit && renders == old(renders) + 1
      ensures old(fahrenheit) == value ==>
        shownCelsius == old(shownCelsius) && shownFahrenheit == old(shownFahrenheit) && renders == old(renders)
    {
      if fahrenheit != value {
        fahrenheit := value;
        Render();
      }
    }

    /**
     * A new Celsius value (section1.js:27-30): Fahrenheit follows it, and a
     * changed entry renders twice, once per field, while an unchanged one
     * renders nothing.
     */
    method ChangeCelsius(value: real)
      requires Valid()
      modifies this
      ensures Valid() && celsius == value && fahrenheit == ToFahrenheit(value)
      ensures renders == old(renders) + (if value == old(celsius) then 0 else 2)
    {
      ToFahrenheitInjective(value, celsius);
      SetCelsius(value);
      SetFahrenheit(ToFahrenheit(value));
    }

    /** A new Fahrenheit value (section1.js:32-35): Celsius follows it, with the same render count. */
    method ChangeFahrenheit(value: real)
      requires Valid()
      modifies this
      ensures Valid() && celsius == ToCelsius(value) && fahrenheit == value
      ensures renders == old(renders) + (if value == old(fahrenheit) then 0 else 2)
    {
      ConsistentEitherWay(celsius, fahrenheit);
      FahrenheitRoundTrip(value);
      ToFahrenheitInjective(ToCelsius(value), celsius);
      SetCelsius(ToCelsius(value));
      SetFahrenheit(value);
    }
  }
}
