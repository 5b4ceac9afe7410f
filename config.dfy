/**
 * `PRICING_CONFIG` of shared/config.js: the fare constants, the pure fare
 * formula `calcularPrecio`, and `cargarDesdeDB`, which overwrites two of the
 * constants in place from the rows of the remote `configuracion` table.
 */
module Pricing {
  import opened Options
  import opened Numeric

  /** The three fare constants, as a value. */
  datatype Tarifas = Tarifas(precioBaseKm: real, precioMinimo: real, descuentoColectivo: real)

  /** The hard-coded defaults: 15 per km, a minimum fare of 30, 30 % off a pooled ride. */
  const PorDefecto := Tarifas(15.0, 30.0, 0.3)

  /** The fare before rounding: the per-km price, never below the minimum, discounted when pooled. */
  function PrecioSinRedondear(t: Tarifas, distanciaKm: real, esColectivo: bool): real
  {
    var precio := Max(distanciaKm * t.precioBaseKm, t.precioMinimo);
    if esColectivo then precio * (1.0 - t.descuentoColectivo) else precio
  }

  /** `calcularPrecio`: the fare rounded half up to a whole amount. */
  function CalcularPrecio(t: Tarifas, distanciaKm: real, esColectivo: bool): (r: int)
    ensures r as real - 0.5 <= PrecioSinRedondear(t, distanciaKm, esColectivo) < r as real + 0.5
  {
    Round(PrecioSinRedondear(t, distanciaKm, esColectivo))
  }

  /** A direct fare is never below the rounded minimum fare, whatever the rate. */
  lemma DirectoNoBajaDelMinimo(t: Tarifas, distanciaKm: real)
    ensures CalcularPrecio(t, distanciaKm, false) >= Round(t.precioMinimo)
  {
  }

  /** With the defaults every direct ride of at most 2 km costs exactly the minimum, 30. */
  lemma HastaDosKmCuestaElMinimo(distanciaKm: real)
    requires distanciaKm <= 2.0
    ensures CalcularPrecio(PorDefecto, distanciaKm, false) == 30
  {
  }

  /** With a non-negative minimum and a discount in [0, 1], pooling never costs more. */
  lemma ColectivoNoMayorQueDirecto(t: Tarifas, distanciaKm: real)
    requires t.precioMinimo >= 0.0
    requires 0.0 <= t.descuentoColectivo <= 1.0
    ensures CalcularPrecio(t, distanciaKm, true) <= CalcularPrecio(t, distanciaKm, false)
  {
    var p := Max(distanciaKm * t.precioBaseKm, t.precioMinimo);
    assert p >= 0.0;
    assert p - p * (1.0 - t.descuentoColectivo) == p * t.descuentoColectivo;
    assert p * t.descuentoColectivo >= 0.0;
    RoundMonotone(PrecioSinRedondear(t, distanciaKm, true), PrecioSinRedondear(t, distanciaKm, false));
  }

  /** With a non-negative rate (and, for a pooled ride, a discount of at most 100 %),
      a longer ride never costs less. */
  lemma MonotonoEnDistancia(t: Tarifas, d1: real, d2: real, esColectivo: bool)
    requires d1 <= d2
    requires t.precioBaseKm >= 0.0
    requires esColectivo ==> t.descuentoColectivo <= 1.0
    ensures CalcularPrecio(t, d1, esColectivo) <= CalcularPrecio(t, d2, esColectivo)
  {
    assert d2 * t.precioBaseKm - d1 * t.precioBaseKm == (d2 - d1) * t.precioBaseKm;
    assert (d2 - d1) * t.precioBaseKm >= 0.0;
    var p1 := Max(d1 * t.precioBaseKm, t.precioMinimo);
    var p2 := Max(d2 * t.precioBaseKm, t.precioMinimo);
    assert p1 <= p2;
    if esColectivo {
      var k := 1.0 - t.descuentoColectivo;
      assert p2 * k - p1 * k == (p2 - p1) * k;
      assert (p2 - p1) * k >= 0.0;
    }
    RoundMonotone(PrecioSinRedondear(t, d1, esColectivo), PrecioSinRedondear(t, d2, esColectivo));
  }

  /** With the defaults, 10 km costs 150 direct and round(150 * 0.7) = 105 pooled. */
  lemma DiezKmConValoresPorDefecto()
    ensures CalcularPrecio(PorDefecto, 10.0, false) == 150
    ensures CalcularPrecio(PorDefecto, 10.0, true) == 105
  {
  }

  /** A half is rounded up: round(k + 0.5) = k + 1 and round(k - 0.5) = k. */
  lemma RedondeoMitadHaciaArriba(k: int)
    ensures Round(k as real + 0.5) == k + 1
    ensures Round(k as real - 0.5) == k
  {
  }

  /** One row of the `configuracion` table: a key and its (already numeric) value. */
  datatype Fila = Fila(clave: string, valor: real)

  const ClaveBaseKm := "precio_base_km"
  const ClaveMinimo := "precio_minimo"

  /** The effect of one iteration of the `forEach` in `cargarDesdeDB`. */
  function AplicarFila(t: Tarifas, f: Fila): Tarifas
  {
    var t1 := if f.clave == ClaveBaseKm then t.(precioBaseKm := f.valor) else t;
    if f.clave == ClaveMinimo then t1.(precioMinimo := f.valor) else t1
  }

  /** The rows applied in order, first to last. */
  function AplicarFilas(t: Tarifas, filas: seq<Fila>): Tarifas
  {
    if filas == [] then t
    else AplicarFila(AplicarFilas(t, filas[..|filas| - 1]), filas[|filas| - 1])
  }

  /** The constant a configuration key names. */
  function Valor(t: Tarifas, clave: string): real
    requires clave == ClaveBaseKm || clave == ClaveMinimo
  {
    if clave == ClaveBaseKm then t.precioBaseKm else t.precioMinimo
  }

  /** The pooled discount is never loaded from the table. */
  lemma {:induction false} DescuentoNuncaCambia(t: Tarifas, filas: seq<Fila>)
    ensures AplicarFilas(t, filas).descuentoColectivo == t.descuentoColectivo
  {
    if filas != [] {
      DescuentoNuncaCambia(t, filas[..|filas| - 1]);
    }
  }

  /** A constant whose key no row carries keeps its value. */
  lemma {:induction false} SinClaveNoCambia(t: Tarifas, filas: seq<Fila>, clave: string)
    requires clave == ClaveBaseKm || clave == ClaveMinimo
    requires forall i :: 0 <= i < |filas| ==> filas[i].clave != clave
    ensures Valor(AplicarFilas(t, filas), clave) == Valor(t, clave)
  {
    if filas != [] {
      SinClaveNoCambia(t, filas[..|filas| - 1], clave);
    }
  }

  /** Rows with any other key are ignored: if no row names either fare key, nothing changes. */
  lemma ClavesAjenasIgnoradas(t: Tarifas, filas: seq<Fila>)
    requires forall i :: 0 <= i < |filas| ==> filas[i].clave != ClaveBaseKm && filas[i].clave != ClaveMinimo
    ensures AplicarFilas(t, filas) == t
  {
  }

  /** When a key repeats, the last row carrying it wins. */
  lemma {:induction false} GanaLaUltimaFila(t: Tarifas, filas: seq<Fila>, clave: string, j: nat)
    requires clave == ClaveBaseKm || clave == ClaveMinimo
    requires j < |filas| && filas[j].clave == clave
    requires forall k :: j < k < |filas| ==> filas[k].clave != clave
    ensures Valor(AplicarFilas(t, filas), clave) == filas[j].valor
  {
    var n := |filas| - 1;
    if j < n {
      GanaLaUltimaFila(t, filas[..n], clave, j);
    }
  }

  /** `PRICING_CONFIG`: the object whose two fare fields `cargarDesdeDB` overwrites in place. */
  class PricingConfig {
    var precioBaseKm: real
    var precioMinimo: real
    var descuentoColectivo: real

    constructor ()
      ensures Vigentes() == PorDefecto
    {
      precioBaseKm, precioMinimo, descuentoColectivo := 15.0, 30.0, 0.3;
    }

    /** The current constants, as used by `calcularPrecio` through `this`. */
    function Vigentes(): Tarifas
      reads this
    {
      Tarifas(precioBaseKm, precioMinimo, descuentoColectivo)
    }

    /**
     * `cargarDesdeDB`: `hayCliente` says whether a data-store client exists;
     * `data` is the `data` of the `select('clave, valor')` reply (None when the
     * reply has no data or the call fails). Each row is applied in order.
     */
    method CargarDesdeDB(hayCliente: bool, data: Option<seq<Fila>>)
      modifies this`precioBaseKm, this`precioMinimo
      ensures Vigentes() == if hayCliente && data.Some? then AplicarFilas(old(Vigentes()), data.value) else old(Vigentes())
    {
      if !hayCliente {
        return;
      }
      if data.Some? {
        var filas := data.value;
        for i := 0 to |filas|
          invariant Vigentes() == AplicarFilas(old(Vigentes()), filas[..i])
        {
          assert filas[..i + 1][..i] == filas[..i];
          var item := filas[i];
          if item.clave == ClaveBaseKm {
            precioBaseKm := item.valor;
          }
          if item.clave == ClaveMinimo {
            precioMinimo := item.valor;
          }
        }
        assert filas[..|filas|] == filas;
      }
    }
  }
}

/** `UTILS.validarTelefono` of shared/config.js: the pattern `^[0-9]{4}-?[0-9]{4}$`. */
module Utils {

  /** The regular-expression class `[0-9]`: an ASCII digit. */
  predicate EsDigito(c: char)
  {
    '0' <= c <= '9'
  }

  predicate TodosDigitos(s: string)
  {
    forall i :: 0 <= i < |s| ==> EsDigito(s[i])
  }

  /** The two accepted shapes: eight digits, or four digits, a hyphen and four digits. */
  predicate FormatoTelefono(s: string)
  {
    || (|s| == 8 && TodosDigitos(s))
    || (|s| == 9 && TodosDigitos(s[..4]) && s[4] == '-' && TodosDigitos(s[5..]))
  }

  /** A state of the automaton for the pattern: digits read so far and whether the hyphen was read. */
  datatype Estado = Leyendo(digitos: nat, guion: bool) | Muerto

  const Inicio := Leyendo(0, false)

  /** One transition: a digit while fewer than eight were read, or the hyphen right after the fourth. */
  function Paso(e: Estado, c: char): Estado
  {
    match e
    case Muerto => Muerto
    case Leyendo(n, g) =>
      if EsDigito(c) then (if n < 8 then Leyendo(n + 1, g) else Muerto)
      else if c == '-' && n == 4 && !g then Leyendo(4, true)
      else Muerto
  }

  /** The automaton run over a whole string, character by character. */
  function Ejecutar(s: string): Estado
  {
    if s == [] then Inicio else Paso(Ejecutar(s[..|s| - 1]), s[|s| - 1])
  }

  /** The state the automaton is in after any prefix, stated without the automaton. */
  function EstadoTras(s: string): Estado
  {
    if |s| <= 8 && TodosDigitos(s) then Leyendo(|s|, false)
    else if 5 <= |s| <= 9 && TodosDigitos(s[..4]) && s[4] == '-' && TodosDigitos(s[5..]) then Leyendo(|s| - 1, true)
    else Muerto
  }

  lemma {:induction false} EjecutarEsEstadoTras(s: string)
    ensures Ejecutar(s) == EstadoTras(s)
  {
    if s != [] {
      var p, c := s[..|s| - 1], s[|s| - 1];
      EjecutarEsEstadoTras(p);
      assert forall i :: 0 <= i < |p| ==> p[i] == s[i];
      assert TodosDigitos(s) <==> TodosDigitos(p) && EsDigito(c);
      if |s| >= 6 {
        assert s[..4] == p[..4];
        assert s[5..] == p[5..] + [c];
        assert TodosDigitos(s[5..]) <==> TodosDigitos(p[5..]) && EsDigito(c);
      }
      if |s| == 5 {
        assert p[..4] == p;
      }
    }
  }

  /** `validarTelefono`: the automaton ends having read eight digits. */
  function ValidarTelefono(telefono: string): (ok: bool)
    ensures ok <==> FormatoTelefono(telefono)
  {
    EjecutarEsEstadoTras(telefono);
    Ejecutar(telefono).Leyendo? && Ejecutar(telefono).digitos == 8
  }

  /** An accepted number has eight digits and at most one hyphen, at index 4. */
  lemma SoloDigitosYGuionEnCuatro(telefono: string, i: nat)
    requires ValidarTelefono(telefono) && i < |telefono|
    ensures EsDigito(telefono[i]) || (i == 4 && telefono[i] == '-' && |telefono| == 9)
  {
  }

  lemma EjemplosTelefono()
    ensures ValidarTelefono("98765432")
    ensures ValidarTelefono("9876-5432")
    ensures !ValidarTelefono("987-65432")
    ensures !ValidarTelefono("9876 5432")
    ensures !ValidarTelefono("9876543")
    ensures !ValidarTelefono("98765432a")
  {
  }
}
