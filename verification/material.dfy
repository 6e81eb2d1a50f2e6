/**
 * `ms::Material` of `ms/material.hpp`: named uniforms looked up by name, a fixed
 * set of properties, and the few settings that may change after the material is
 * built. `Property`, `Blending` and `Shading` come from headers that are not part
 * of this model and are represented by their enumerators' values; the uniform
 * type is a parameter.
 */
module Materials {
  import opened Wrappers

  type Property = nat
  type Blending = nat
  type Shading = nat

  /** `material_property_not_found`, carrying the name that was asked for. */
  datatype MaterialError = MaterialPropertyNotFound(name: string)

  /** The reference the non-const `getProperty` hands out, identified by the key it
      was found under. */
  datatype UniformRef = UniformRef(key: string)

  class Material<Uniform>
  {
    /** Property values; the set of properties is fixed once built. */
    var properties: map<Property, Uniform>
    /** Custom uniforms by name; the set of names is fixed once built. */
    var uniforms: map<string, Uniform>
    /** Changeable through the non-const `getBlending()`. */
    var blending: Blending
    /** Changeable through the non-const `getTwoSided()`. */
    var twoSided: bool
    /** Fields with read accessors only. */
    const shading: Shading
    const refraction: bool
    const name: string
    const shaderIndex: nat

    ghost const propertyKeys: set<Property>
    ghost const uniformNames: set<string>

    /** The key sets are the ones the material was built with. */
    ghost predicate Valid()
      reads this
    {
      properties.Keys == propertyKeys && uniforms.Keys == uniformNames
    }

    /** What `MaterialBuilder` hands over when it builds a material. */
    constructor (props: map<Property, Uniform>, named: map<string, Uniform>, blend: Blending,
                 shade: Shading, sided: bool, refract: bool, materialName: string, index: nat)
      ensures Valid()
      ensures propertyKeys == props.Keys && uniformNames == named.Keys
      ensures properties == props && uniforms == named && blending == blend && twoSided == sided
      ensures shading == shade && refraction == refract && name == materialName && shaderIndex == index
    {
      properties := props;
      uniforms := named;
      blending := blend;
      twoSided := sided;
      shading := shade;
      refraction := refract;
      name := materialName;
      shaderIndex := index;
      propertyKeys := props.Keys;
      uniformNames := named.Keys;
    }

    /** The const `getProperty`: the uniform stored under the name, or the
        not-found error carrying the name. */
    function GetProperty(uniformName: string): (r: Result<Uniform, MaterialError>)
      reads this
      ensures r.Success? <==> uniformName in uniforms
      ensures r.Success? ==> r.value == uniforms[uniformName]
      ensures r.Failure? ==> r.error == MaterialPropertyNotFound(uniformName)
    {
      if uniformName in uniforms then Success(uniforms[uniformName])
      else Failure(MaterialPropertyNotFound(uniformName))
    }

    /** The non-const `getProperty`: a reference to the uniform stored under the
        name, or the same error as the const overload. */
    method GetMutableProperty(uniformName: string) returns (r: Result<UniformRef, MaterialError>)
      ensures r.Success? <==> uniformName in uniforms
      ensures r.Success? ==> r.value.key == uniformName
      ensures r.Failure? ==> r.error == MaterialPropertyNotFound(uniformName)
      ensures r.Success? == GetProperty(uniformName).Success?
      ensures r.Failure? ==> r.error == GetProperty(uniformName).error
    {
      if uniformName in uniforms {
        r := Success(UniformRef(uniformName));
      } else {
        r := Failure(MaterialPropertyNotFound(uniformName));
      }
    }

    /** An assignment through a reference from `GetMutableProperty`: the value
        changes, the set of names does not, and the const lookup sees the new value. */
    method WriteProperty(ref: UniformRef, value: Uniform)
      requires Valid() && ref.key in uniforms
      modifies this`uniforms
      ensures Valid()
      ensures uniforms == old(uniforms)[ref.key := value]
      ensures GetProperty(ref.key) == Success(value)
      ensures forall n :: n != ref.key ==> GetProperty(n) == old(GetProperty(n))
    {
      uniforms := uniforms[ref.key := value];
    }

    /** An assignment through the non-const `getBlending()`. */
    method SetBlending(b: Blending)
      requires Valid()
      modifies this`blending
      ensures Valid() && blending == b
    {
      blending := b;
    }

    /** An assignment through the non-const `getTwoSided()`. */
    method SetTwoSided(sided: bool)
      requires Valid()
      modifies this`twoSided
      ensures Valid() && twoSided == sided
    {
      twoSided := sided;
    }
  }
}
