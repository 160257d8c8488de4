/** `ShaderLibrary`: shaders registered by name. Adding asserts that the
    name is new; with no name the shader's own name is the key, but the
    duplicate check is still made against the missing name. */
module ShaderLibraries {
  import opened Wrappers
  import Shaders

  /** The key `add` stores under: the given name, or the shader's name. */
  function Key(name: Option<string>, shaderName: string): string
  {
    if name.None? then shaderName else name.value
  }

  /** `name in self.shaders`, where `None` is never a key. */
  predicate Registered<S>(shaders: map<string, S>, name: Option<string>)
  {
    name.Some? && name.value in shaders
  }

  /** What `add(name, shader)` leaves in the dictionary, or the assertion it
      fails. */
  function AddResult<S>(shaders: map<string, S>, name: Option<string>, shaderName: string, shader: S)
    : Result<map<string, S>>
  {
    if Registered(shaders, name) then Err(AssertionError("Shader already exists!"))
    else Ok(shaders[Key(name, shaderName) := shader])
  }

  /** After an `add`, the key exists and maps to the new shader, every other
      key is unchanged, and nothing is removed. A name already present is
      refused. */
  lemma AddThenLookup<S>(shaders: map<string, S>, name: Option<string>, shaderName: string, shader: S)
    ensures AddResult(shaders, name, shaderName, shader).Err? <==> Registered(shaders, name)
    ensures AddResult(shaders, name, shaderName, shader).Ok? ==>
              var m := AddResult(shaders, name, shaderName, shader).value;
              && Registered(m, Some(Key(name, shaderName)))
              && m[Key(name, shaderName)] == shader
              && m.Keys == shaders.Keys + {Key(name, shaderName)}
              && (forall k :: k in shaders && k != Key(name, shaderName) ==> m[k] == shaders[k])
  {
  }

  /** The check made for `add(None, shader)` never sees the shader's name:
      a shader already registered under that name is replaced silently,
      while the same name given explicitly is refused. */
  lemma NoneNameOverwrites<S>(shaders: map<string, S>, shaderName: string, shader: S)
    requires shaderName in shaders
    ensures AddResult(shaders, None, shaderName, shader) == Ok(shaders[shaderName := shader])
    ensures AddResult(shaders, Some(shaderName), shaderName, shader).Err?
  {
  }

  class ShaderLibrary {
    var shaders: map<string, Shaders.OpenGLShader>

    constructor ()
      ensures shaders == map[]
    {
      shaders := map[];
    }

    /** `exists(name)`: pure membership. */
    function Exists(name: Option<string>): (b: bool)
      reads this
      ensures b <==> Registered(shaders, name)
    {
      name.Some? && name.value in shaders
    }

    /** `add(name, shader)`. */
    method Add(name: Option<string>, shader: Shaders.OpenGLShader) returns (r: Outcome)
      modifies this
      ensures var expected := AddResult(old(shaders), name, shader.name, shader);
              && (expected.Err? ==> r == Raised(expected.error) && shaders == old(shaders))
              && (expected.Ok? ==> r == Done && shaders == expected.value)
    {
      if Exists(name) {
        return Raised(AssertionError("Shader already exists!"));
      }
      var key := if name.None? then shader.name else name.value;
      shaders := shaders[key := shader];
      r := Done;
    }

    /** `lib[name]`: the registered shader, or a failed assertion for an
        unknown name. */
    function Get(name: string): (r: Result<Shaders.OpenGLShader>)
      reads this
      ensures r.Ok? <==> Registered(shaders, Some(name))
      ensures r.Ok? ==> r.value == shaders[name]
      ensures r.Err? ==> r.error == AssertionError("Shader not found!")
    {
      if !Exists(Some(name)) then Err(AssertionError("Shader not found!")) else Ok(shaders[name])
    }
  }
}
