/** Price arithmetic on `int64`, with the overflow guards of the Go code. */
module Pricing {
  import opened Common

  datatype Total = Total(rentalPrice: int, payment: int)

  /** Every intermediate value is an `int64`; division is Go's, on a positive divisor. */
  function CalculateRentalTotal(hourlyPrice: int, deposit: int, hours: int): Result<Total> {
    if hourlyPrice <= 0 || deposit < 0 || hours <= 0 then Err(InvalidRentalPricing)
    else if hourlyPrice > MAX_INT64 / hours then Err(RentalPriceOverflow)
    else
      var rentalPrice := WrapInt64(hourlyPrice * hours);
      if rentalPrice > MAX_INT64 - deposit then Err(RentalPriceOverflow)
      else Ok(Total(rentalPrice, WrapInt64(rentalPrice + deposit)))
  }

  const MAX_RENTAL_HOURS := 720

  function ValidateAdminPricing(hourlyPrice: int, deposit: int): Option<Error> {
    if hourlyPrice <= 0 || deposit < 0 || hourlyPrice > MAX_INT64 / 720 then Some(PricingOutOfRange)
    else if WrapInt64(hourlyPrice * 720) > MAX_INT64 - deposit then Some(PricingOutOfRange)
    else None
  }

  /** A sum that is an `int64` is not changed by wrapping. */
  lemma WrapExact(n: int)
    requires IsInt64(n)
    ensures WrapInt64(n) == n
  {
  }

  lemma QuotientBound(price: int, hours: int)
    requires price > 0 && hours > 0
    ensures price > MAX_INT64 / hours <==> price * hours > MAX_INT64
  {
    var q := MAX_INT64 / hours;
    assert q * hours <= MAX_INT64 < q * hours + hours;
    if price > q {
      assert price * hours >= (q + 1) * hours;
    } else {
      assert price * hours <= q * hours;
    }
  }

  /** The guards are exact: the calculation succeeds on all and only the valid inputs whose
      mathematical total fits an `int64`, and then returns that total. */
  lemma TotalIsExact(hourlyPrice: int, deposit: int, hours: int)
    requires IsInt64(hourlyPrice) && IsInt64(deposit) && IsInt64(hours)
    ensures CalculateRentalTotal(hourlyPrice, deposit, hours).Ok? <==>
            hourlyPrice > 0 && deposit >= 0 && hours > 0 && hourlyPrice * hours + deposit <= MAX_INT64
    ensures CalculateRentalTotal(hourlyPrice, deposit, hours).Ok? ==>
            CalculateRentalTotal(hourlyPrice, deposit, hours).value
            == Total(hourlyPrice * hours, hourlyPrice * hours + deposit)
    ensures CalculateRentalTotal(hourlyPrice, deposit, hours) == Err(InvalidRentalPricing) <==>
            hourlyPrice <= 0 || deposit < 0 || hours <= 0
  {
    if hourlyPrice > 0 && deposit >= 0 && hours > 0 {
      QuotientBound(hourlyPrice, hours);
      assert hourlyPrice * hours > 0;
    }
  }

  /** An administrator may set exactly the prices for which the longest rental can be billed. */
  lemma AdminPricingIsLongestRental(hourlyPrice: int, deposit: int)
    requires IsInt64(hourlyPrice) && IsInt64(deposit)
    ensures ValidateAdminPricing(hourlyPrice, deposit).None? <==>
            CalculateRentalTotal(hourlyPrice, deposit, MAX_RENTAL_HOURS).Ok?
  {
  }

  lemma MulMonotone(a: int, b: int, c: int)
    requires a >= 0 && b <= c
    ensures a * b <= a * c
  {
  }

  /** Hence no rental of an account priced by an administrator is ever refused for its price. */
  lemma AdminPricingCoversAllRentals(hourlyPrice: int, deposit: int, hours: int)
    requires IsInt64(hourlyPrice) && IsInt64(deposit)
    requires ValidateAdminPricing(hourlyPrice, deposit).None?
    requires 1 <= hours <= MAX_RENTAL_HOURS
    ensures CalculateRentalTotal(hourlyPrice, deposit, hours).Ok?
  {
    TotalIsExact(hourlyPrice, deposit, MAX_RENTAL_HOURS);
    TotalIsExact(hourlyPrice, deposit, hours);
    MulMonotone(hourlyPrice, hours, MAX_RENTAL_HOURS);
  }
}
