/** gamma_correct, which both negative scripts define in the same way. */
module Correction {
  import opened Results
  import opened Rasters

  /**
   * A gamma of exactly 1.0 leaves the image alone, 0.0 divides by zero, and any other
   * gamma applies the curve with exponent 1/gamma.
   */
  function GammaCorrect(curve: (Image, real) -> Image, gamma: real, img: Image): (r: Result<Image>)
    ensures gamma == 1.0 ==> r == Ok(img)
    ensures r.Err? <==> gamma == 0.0
    ensures r.Err? ==> r.error == ZeroDivisionError
    ensures gamma != 1.0 && gamma != 0.0 ==> r == Ok(curve(img, 1.0 / gamma))
  {
    if gamma == 1.0 then Ok(img)
    else if gamma == 0.0 then Err(ZeroDivisionError)
    else Ok(curve(img, 1.0 / gamma))
  }
}
