/**
 * `loadTextureAsset`: a preview scene holding a unit plane with an unlit,
 * alpha-blended material showing the dropped image. When the image is
 * decoded the plane is scaled to the image's aspect ratio.
 */
module PreviewLoader {

  /** Babylon's `Texture.CLAMP_ADDRESSMODE`, `Texture.WRAP_ADDRESSMODE` and `PBRMaterial.PBRMATERIAL_ALPHABLEND`. */
  const ClampAddressMode: int := 0
  const WrapAddressMode: int := 1
  const AlphaBlend: int := 2

  /**
   * The plane's (x, y) scaling once the image size is known: a wide image
   * shrinks the plane's height to `height / width`, any other image shrinks
   * its width to `width / height`; the other axis is left as it was.
   */
  function FitScaling(scalingX: real, scalingY: real, width: nat, height: nat): (r: (real, real))
    requires width > 0 || height > 0
    ensures width > height ==>
      r.0 == scalingX && r.1 * (width as real) == height as real && 0.0 <= r.1 < 1.0
    ensures width <= height ==>
      r.1 == scalingY && r.0 * (height as real) == width as real && 0.0 <= r.0 <= 1.0
  {
    if width > height then (scalingX, (height as real) / (width as real))
    else ((width as real) / (height as real), scalingY)
  }

  /**
   * Starting from the unit plane, the fitted plane has the image's aspect
   * ratio and fits the 1 x 1 square, touching it along one side.
   */
  lemma UnitPlaneKeepsAspectRatio(width: nat, height: nat)
    requires width > 0 && height > 0
    ensures var (x, y) := FitScaling(1.0, 1.0, width, height);
      x * (height as real) == y * (width as real) &&
      0.0 < x <= 1.0 && 0.0 < y <= 1.0 &&
      (x == 1.0 || y == 1.0)
  {
  }

  lemma FitExamples()
    ensures FitScaling(1.0, 1.0, 200, 100) == (1.0, 0.5)
    ensures FitScaling(1.0, 1.0, 100, 200) == (0.5, 1.0)
    ensures FitScaling(1.0, 1.0, 64, 64) == (1.0, 1.0)
  {
  }

  /** The preview scene: the plane's scaling, the material's settings and the texture's sampling settings. */
  class PreviewScene {
    const url: string
    var scalingX: real
    var scalingY: real
    const unlit: bool
    const alphaMode: int
    var gammaSpace: bool
    var hasAlpha: bool
    var wrapU: int
    var wrapV: int

    /** `loadTextureAsset(url, engine)` before the image is decoded; the texture starts with Babylon's defaults. */
    constructor(url: string)
      ensures this.url == url
      ensures scalingX == 1.0 && scalingY == 1.0
      ensures unlit && alphaMode == AlphaBlend
      ensures !hasAlpha && wrapU == WrapAddressMode && wrapV == WrapAddressMode
    {
      this.url := url;
      scalingX, scalingY := 1.0, 1.0;
      unlit := true;
      alphaMode := AlphaBlend;
      gammaSpace := true;
      hasAlpha := false;
      wrapU, wrapV := WrapAddressMode, WrapAddressMode;
    }

    /** The texture's load callback, given the decoded image's base size. */
    method OnTextureLoaded(width: nat, height: nat)
      requires width > 0 || height > 0
      modifies this
      ensures (scalingX, scalingY) == FitScaling(old(scalingX), old(scalingY), width, height)
      ensures gammaSpace && hasAlpha && wrapU == ClampAddressMode && wrapV == ClampAddressMode
    {
      if width > height {
        scalingY := (height as real) / (width as real);
      } else {
        scalingX := (width as real) / (height as real);
      }
      gammaSpace := true;
      hasAlpha := true;
      wrapU := ClampAddressMode;
      wrapV := ClampAddressMode;
    }
  }
}
