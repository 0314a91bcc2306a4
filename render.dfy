/**
  * `renderScene` of public/scripts/engine/webgl.js, modelled as the sequence of
  * WebGL calls it makes. A `Renderer` is the WebGL context: it records every
  * state-changing call in `trace` and hands out buffer names from a counter.
  */
module Render {

  import opened Wrappers
  import opened Vectors
  import opened ColorUtils

  /** The two entries of the shader's `u_lights` array. */
  datatype LightSlot = PointSlot | DirectionalSlot

  /** The shader uniforms `renderScene` sets, by their GLSL names. */
  datatype Uniform =
    | CameraPosition               // u_cameraPosition
    | LightDiffuse(slot: LightSlot)  // u_lights[i].diffuse
    | LightAmbient(slot: LightSlot)  // u_lights[i].ambient
    | LightSpecular(slot: LightSlot) // u_lights[i].specular
    | LightPosition(slot: LightSlot) // u_lights[i].position
    | ViewMatrix                   // u_vMatrix
    | ProjectionMatrix             // u_pMatrix
    | ModelMatrix                  // u_mMatrix
    | NormalMatrix                 // u_nMatrix
    | MaterialDiffuse              // u_material.diffuse
    | MaterialAmbient              // u_material.ambient
    | MaterialSpecular             // u_material.specular
    | MaterialShininess            // u_material.shininess
    | UseLighting                  // u_useLighting
    | UseTexture                   // u_useTexture
    | TextureSampler               // u_texture
    | TextureScale                 // u_textureScale

  /** The vertex attributes: a_vertexPosition, a_vertexNormal, a_texturePosition. */
  datatype Attribute = VertexPosition | VertexNormal | TexturePosition

  /**
    * What `enableVertexAttribArray` is given: an attribute location, or (as
    * `renderScene` does after each matrix upload) a uniform location.
    */
  datatype Location = AttributeAt(attribute: Attribute) | UniformAt(uniform: Uniform)

  datatype ClearMask = ColorBuffer | DepthBuffer

  datatype DrawMode = Triangles | LineLoop

  /** One state-changing WebGL call. Location queries are not recorded. */
  datatype Command =
    | Clear(mask: ClearMask)
    | Uniform1i(u: Uniform, i: int)
    | Uniform1f(u: Uniform, f: real)
    | Uniform3f(u: Uniform, x: real, y: real, z: real)
    | Uniform4f(u: Uniform, x: real, y: real, z: real, w: real)
    | UniformMatrix4fv(u: Uniform, transpose: bool, matrix: seq<real>)
    | EnableVertexAttribArray(location: Location)
    | CreateBuffer(buffer: nat)
    | BindArrayBuffer(buffer: nat)
    | BufferStaticData(data: seq<real>)
    | VertexAttribPointer(attribute: Attribute, size: nat)
    | PolygonOffset(factor: real, units: real)
    | DrawArrays(mode: DrawMode, first: nat, count: int)
    | DeleteBuffer(buffer: nat)

  /** A light as `renderScene` reads it: a position and three colours. */
  datatype Light = Light(position: Vec3, diffuse: Color, ambient: Color, specular: Color)

  /** The camera's position and the two matrices its getters return. */
  datatype CameraView = CameraView(position: Vec3, viewMatrix: seq<real>, projectionMatrix: seq<real>)

  /**
    * A scene object as `renderScene` reads it: its flags, the matrices and arrays its
    * getters return, its colour, its texture unit (-1 for none) and texture scale.
    */
  datatype SceneObject = SceneObject(
    visible: bool,
    isPointLight: bool,
    transformMatrix: seq<real>,
    normalMatrix: seq<real>,
    color: Color,
    texture: int,
    textureScale: real,
    vertices: seq<real>,
    normals: seq<real>,
    textureCoordinates: seq<real>)

  /** The `renderParameters` object of the page. */
  datatype RenderParameters = RenderParameters(
    drawPolygons: bool,
    drawEdges: bool,
    drawLight: bool,
    edgeColor: string,
    materialShininess: real)

  /** The calls made so far, the next buffer name, and whether the frame ran to its end. */
  datatype Pass = Pass(commands: seq<Command>, nextBuffer: nat, completed: bool)

  /** `vertices.length / 3`, as the integer count `drawArrays` receives. */
  function VertexCount(o: SceneObject): int
  {
    |o.vertices| / 3
  }

  /** The four uniforms of one light; `w` is 1 for the point light and 0 for the directional one. */
  function LightCommands(slot: LightSlot, light: Light, w: real): seq<Command>
  {
    [Uniform3f(LightDiffuse(slot), light.diffuse.r, light.diffuse.g, light.diffuse.b),
     Uniform3f(LightAmbient(slot), light.ambient.r, light.ambient.g, light.ambient.b),
     Uniform3f(LightSpecular(slot), light.specular.r, light.specular.g, light.specular.b),
     Uniform4f(LightPosition(slot), light.position.x, light.position.y, light.position.z, w)]
  }

  /** The frame set-up before the object loop: clears, camera, both lights, view and projection. */
  function HeaderCommands(camera: CameraView, pointLight: Light, directionalLight: Light): seq<Command>
  {
    [Clear(ColorBuffer), Clear(DepthBuffer),
     Uniform3f(CameraPosition, camera.position.x, camera.position.y, camera.position.z)]
    + LightCommands(PointSlot, pointLight, 1.0)
    + LightCommands(DirectionalSlot, directionalLight, 0.0)
    + [UniformMatrix4fv(ViewMatrix, false, camera.viewMatrix), EnableVertexAttribArray(UniformAt(ViewMatrix)),
       UniformMatrix4fv(ProjectionMatrix, false, camera.projectionMatrix),
       EnableVertexAttribArray(UniformAt(ProjectionMatrix))]
  }

  /** `u_useTexture`'s value: 0 for the texture unit -1, 1 for any other. */
  function UseTextureFlag(o: SceneObject): int
  {
    if o.texture == -1 then 0 else 1
  }

  /** `u_useLighting`'s value in the polygon pass: lit unless lighting is off or the object is the point light. */
  function LightingFlag(o: SceneObject, parameters: RenderParameters): int
  {
    if parameters.drawLight && !o.isPointLight then 1 else 0
  }

  /** The matrices and material of one object, and its texture when it has one. */
  function MaterialCommands(o: SceneObject, parameters: RenderParameters): seq<Command>
  {
    [UniformMatrix4fv(ModelMatrix, false, o.transformMatrix), EnableVertexAttribArray(UniformAt(ModelMatrix)),
     UniformMatrix4fv(NormalMatrix, false, o.normalMatrix), EnableVertexAttribArray(UniformAt(NormalMatrix)),
     Uniform3f(MaterialDiffuse, o.color.r, o.color.g, o.color.b),
     Uniform3f(MaterialAmbient, 1.0, 1.0, 1.0),
     Uniform3f(MaterialSpecular, o.color.r, o.color.g, o.color.b),
     Uniform1f(MaterialShininess, parameters.materialShininess),
     Uniform1i(UseTexture, UseTextureFlag(o))]
    + (if UseTextureFlag(o) != 0 then [Uniform1i(TextureSampler, o.texture), Uniform1f(TextureScale, o.textureScale)] else [])
  }

  /** One of the three buffer blocks: create, bind, upload, describe and enable. */
  function BufferCommands(buffer: nat, data: seq<real>, attribute: Attribute, size: nat): seq<Command>
  {
    [CreateBuffer(buffer), BindArrayBuffer(buffer), BufferStaticData(data),
     VertexAttribPointer(attribute, size), EnableVertexAttribArray(AttributeAt(attribute))]
  }

  /** The vertex, normal and texture-coordinate buffers of one object, named from `base` on. */
  function GeometryCommands(o: SceneObject, base: nat): seq<Command>
  {
    BufferCommands(base, o.vertices, VertexPosition, 3)
    + BufferCommands(base + 1, o.normals, VertexNormal, 3)
    + BufferCommands(base + 2, o.textureCoordinates, TexturePosition, 2)
  }

  /** The filled pass, when `drawPolygons` is set. */
  function PolygonCommands(o: SceneObject, parameters: RenderParameters): seq<Command>
  {
    if parameters.drawPolygons then
      [Uniform1i(UseLighting, LightingFlag(o, parameters)), PolygonOffset(0.0, 0.0), DrawArrays(Triangles, 0, VertexCount(o))]
    else []
  }

  /** The wireframe pass in the parsed edge colour, unlit, untextured and pushed back by the polygon offset. */
  function EdgeCommands(o: SceneObject, edge: Color): seq<Command>
  {
    [Uniform3f(MaterialDiffuse, edge.r, edge.g, edge.b), Uniform1i(UseLighting, 0), Uniform1i(UseTexture, 0),
     PolygonOffset(1.0, 1.0), DrawArrays(LineLoop, 0, VertexCount(o))]
  }

  /** The calls made for an object before its wireframe pass. */
  function ObjectBody(o: SceneObject, parameters: RenderParameters, base: nat): seq<Command>
  {
    MaterialCommands(o, parameters) + GeometryCommands(o, base) + PolygonCommands(o, parameters)
  }

  /**
    * What follows the filled pass: the wireframe when `drawEdges` is set, then the
    * deletion of the vertex buffer `base`. `edge` is what `hexToColor` makes of the
    * edge colour. `None` stands for the throw: with the wireframe on, `hexToColor`
    * indexes the failed match of an edge colour its pattern rejects and throws before
    * any of these calls.
    */
  function ObjectTail(o: SceneObject, parameters: RenderParameters, edge: Option<Color>, base: nat): Option<seq<Command>>
  {
    if !parameters.drawEdges then Some([DeleteBuffer(base)])
    else match edge
      case None => None
      case Some(color) => Some(EdgeCommands(o, color) + [DeleteBuffer(base)])
  }

  /**
    * One call of the `forEach` callback with buffer names starting at `base`. An
    * invisible object makes no call. A visible one uses three buffer names; when it
    * throws, the rest of the frame is not drawn.
    */
  function ObjectPass(o: SceneObject, parameters: RenderParameters, edge: Option<Color>, base: nat): Pass
  {
    if !o.visible then Pass([], base, true)
    else
      var tail := ObjectTail(o, parameters, edge, base);
      Pass(ObjectBody(o, parameters, base) + (if tail.Some? then tail.value else []), base + 3, tail.Some?)
  }

  /** The object loop over `objects` in order, stopping at the first object that throws. */
  function ScenePass(objects: seq<SceneObject>, parameters: RenderParameters, edge: Option<Color>, base: nat): Pass
    decreases |objects|
  {
    if |objects| == 0 then Pass([], base, true)
    else
      var before := ScenePass(objects[..|objects| - 1], parameters, edge, base);
      if !before.completed then before
      else
        var last := ObjectPass(objects[|objects| - 1], parameters, edge, before.nextBuffer);
        Pass(before.commands + last.commands, last.nextBuffer, last.completed)
  }

  /** The whole of `renderScene`: the frame set-up, then the object loop. */
  function FramePass(objects: seq<SceneObject>, camera: CameraView, pointLight: Light, directionalLight: Light,
                     parameters: RenderParameters, base: nat): Pass
  {
    var scene := ScenePass(objects, parameters, HexToColor(parameters.edgeColor), base);
    Pass(HeaderCommands(camera, pointLight, directionalLight) + scene.commands, scene.nextBuffer, scene.completed)
  }

  /** The WebGL context: the calls made on it so far and the next buffer name `createBuffer` hands out. */
  class Renderer {
    var trace: seq<Command>
    var nextBuffer: nat

    /** Every buffer created so far has a name below the next one `createBuffer` hands out. */
    ghost predicate Valid()
      reads this
    {
      forall i :: 0 <= i < |trace| && trace[i].CreateBuffer? ==> trace[i].buffer < nextBuffer
    }

    constructor ()
      ensures trace == [] && nextBuffer == 0
      ensures Valid()
    {
      trace := [];
      nextBuffer := 0;
    }

    /** One WebGL call. */
    method Emit(c: Command)
      requires Valid() && (c.CreateBuffer? ==> c.buffer < nextBuffer)
      modifies this`trace
      ensures trace == old(trace) + [c]
      ensures Valid()
    {
      trace := trace + [c];
    }

    /** `GL.createBuffer()`: a fresh buffer name. */
    method NewBuffer() returns (buffer: nat)
      requires Valid()
      modifies this`trace, this`nextBuffer
      ensures buffer == old(nextBuffer) && nextBuffer == old(nextBuffer) + 1
      ensures trace == old(trace) + [CreateBuffer(buffer)]
      ensures forall c :: c in old(trace) && c.CreateBuffer? ==> c.buffer != buffer
      ensures Valid()
    {
      buffer := nextBuffer;
      nextBuffer := nextBuffer + 1;
      Emit(CreateBuffer(buffer));
    }

    /** The create, bind, upload, describe and enable block the callback repeats for each array. */
    method AttributeBuffer(data: seq<real>, attribute: Attribute, size: nat) returns (buffer: nat)
      requires Valid()
      modifies this`trace, this`nextBuffer
      ensures buffer == old(nextBuffer) && nextBuffer == old(nextBuffer) + 1
      ensures trace == old(trace) + BufferCommands(buffer, data, attribute, size)
      ensures forall c :: c in old(trace) && c.CreateBuffer? ==> c.buffer != buffer
      ensures Valid()
    {
      buffer := NewBuffer();
      Emit(BindArrayBuffer(buffer));
      Emit(BufferStaticData(data));
      Emit(VertexAttribPointer(attribute, size));
      Emit(EnableVertexAttribArray(AttributeAt(attribute)));
    }

    /** The vertex, normal and texture-coordinate buffers of one object; the vertex buffer is returned. */
    method UploadGeometry(o: SceneObject) returns (verticesBuffer: nat)
      requires Valid()
      modifies this`trace, this`nextBuffer
      ensures verticesBuffer == old(nextBuffer) && nextBuffer == old(nextBuffer) + 3
      ensures trace == old(trace) + GeometryCommands(o, old(nextBuffer))
      ensures forall c :: c in old(trace) && c.CreateBuffer? ==> c.buffer < verticesBuffer
      ensures Valid()
    {
      verticesBuffer := AttributeBuffer(o.vertices, VertexPosition, 3);
      var normalsBuffer := AttributeBuffer(o.normals, VertexNormal, 3);
      var textureCoordinatesBuffer := AttributeBuffer(o.textureCoordinates, TexturePosition, 2);
    }

    /** The matrix and material uniforms of one object, following the callback line by line. */
    method SetMaterial(o: SceneObject, parameters: RenderParameters)
      requires Valid()
      modifies this`trace
      ensures trace == old(trace) + MaterialCommands(o, parameters)
      ensures Valid()
    {
      Emit(UniformMatrix4fv(ModelMatrix, false, o.transformMatrix));
      Emit(EnableVertexAttribArray(UniformAt(ModelMatrix)));
      Emit(UniformMatrix4fv(NormalMatrix, false, o.normalMatrix));
      Emit(EnableVertexAttribArray(UniformAt(NormalMatrix)));
      Emit(Uniform3f(MaterialDiffuse, o.color.r, o.color.g, o.color.b));
      Emit(Uniform3f(MaterialAmbient, 1.0, 1.0, 1.0));
      Emit(Uniform3f(MaterialSpecular, o.color.r, o.color.g, o.color.b));
      Emit(Uniform1f(MaterialShininess, parameters.materialShininess));
      var useTexture := if o.texture == -1 then 0 else 1;
      Emit(Uniform1i(UseTexture, useTexture));
      if useTexture != 0 {
        Emit(Uniform1i(TextureSampler, o.texture));
        Emit(Uniform1f(TextureScale, o.textureScale));
      }
    }

    /** The filled pass of one object. */
    method DrawPolygons(o: SceneObject, parameters: RenderParameters, verticesCount: int)
      requires verticesCount == VertexCount(o)
      requires Valid()
      modifies this`trace
      ensures trace == old(trace) + PolygonCommands(o, parameters)
      ensures Valid()
    {
      if parameters.drawPolygons {
        Emit(Uniform1i(UseLighting, if parameters.drawLight && !o.isPointLight then 1 else 0));
        Emit(PolygonOffset(0.0, 0.0));
        Emit(DrawArrays(Triangles, 0, verticesCount));
      }
    }

    /** The wireframe pass of one object in the parsed edge colour. */
    method DrawEdges(o: SceneObject, edge: Color, verticesCount: int)
      requires verticesCount == VertexCount(o)
      requires Valid()
      modifies this`trace
      ensures trace == old(trace) + EdgeCommands(o, edge)
      ensures Valid()
    {
      Emit(Uniform3f(MaterialDiffuse, edge.r, edge.g, edge.b));
      Emit(Uniform1i(UseLighting, 0));
      Emit(Uniform1i(UseTexture, 0));
      Emit(PolygonOffset(1.0, 1.0));
      Emit(DrawArrays(LineLoop, 0, verticesCount));
    }

    /** The wireframe pass and the deletion of the vertex buffer; false where the source throws. */
    method FinishObject(o: SceneObject, parameters: RenderParameters, edgeColor: Option<Color>,
                        verticesBuffer: nat, verticesCount: int) returns (completed: bool)
      requires verticesCount == VertexCount(o)
      requires Valid()
      modifies this`trace
      ensures var tail := ObjectTail(o, parameters, edgeColor, verticesBuffer);
        completed == tail.Some? && trace == old(trace) + (if tail.Some? then tail.value else [])
      ensures Valid()
    {
      if parameters.drawEdges {
        if edgeColor.None? {
          return false;
        }
        DrawEdges(o, edgeColor.value, verticesCount);
      }
      Emit(DeleteBuffer(verticesBuffer));
      completed := true;
    }

    /**
      * The `forEach` callback for one object, given what `hexToColor` makes of the edge
      * colour; false where the source throws.
      */
    method RenderObject(o: SceneObject, parameters: RenderParameters, edgeColor: Option<Color>) returns (completed: bool)
      requires Valid()
      modifies this`trace, this`nextBuffer
      ensures var pass := ObjectPass(o, parameters, edgeColor, old(nextBuffer));
        trace == old(trace) + pass.commands && nextBuffer == pass.nextBuffer && completed == pass.completed
      ensures Valid()
    {
      if !o.visible {
        return true;
      }
      var verticesBuffer, verticesCount := DrawBody(o, parameters);
      completed := FinishObject(o, parameters, edgeColor, verticesBuffer, verticesCount);
    }

    /** The callback of a visible object up to its wireframe pass: material, buffers and filled pass. */
    method DrawBody(o: SceneObject, parameters: RenderParameters) returns (verticesBuffer: nat, verticesCount: int)
      requires Valid()
      modifies this`trace, this`nextBuffer
      ensures verticesBuffer == old(nextBuffer) && nextBuffer == old(nextBuffer) + 3 && verticesCount == VertexCount(o)
      ensures trace == old(trace) + ObjectBody(o, parameters, old(nextBuffer))
      ensures Valid()
    {
      ghost var start := trace;
      ghost var base := nextBuffer;
      SetMaterial(o, parameters);
      verticesCount := |o.vertices| / 3;
      verticesBuffer := UploadGeometry(o);
      assert trace == start + (MaterialCommands(o, parameters) + GeometryCommands(o, base));
      DrawPolygons(o, parameters, verticesCount);
    }

    /** The diffuse, ambient, specular and position uniforms of one light, `w` tagging its kind. */
    method SetLight(slot: LightSlot, light: Light, w: real)
      requires Valid()
      modifies this`trace
      ensures trace == old(trace) + LightCommands(slot, light, w)
      ensures Valid()
    {
      Emit(Uniform3f(LightDiffuse(slot), light.diffuse.r, light.diffuse.g, light.diffuse.b));
      Emit(Uniform3f(LightAmbient(slot), light.ambient.r, light.ambient.g, light.ambient.b));
      Emit(Uniform3f(LightSpecular(slot), light.specular.r, light.specular.g, light.specular.b));
      Emit(Uniform4f(LightPosition(slot), light.position.x, light.position.y, light.position.z, w));
    }

    /** The two clears, the camera and light uniforms, and the view and projection matrices. */
    method SetFrame(camera: CameraView, pointLight: Light, directionalLight: Light)
      requires Valid()
      modifies this`trace
      ensures trace == old(trace) + HeaderCommands(camera, pointLight, directionalLight)
      ensures Valid()
    {
      Emit(Clear(ColorBuffer));
      Emit(Clear(DepthBuffer));
      Emit(Uniform3f(CameraPosition, camera.position.x, camera.position.y, camera.position.z));
      SetLight(PointSlot, pointLight, 1.0);
      SetLight(DirectionalSlot, directionalLight, 0.0);
      Emit(UniformMatrix4fv(ViewMatrix, false, camera.viewMatrix));
      Emit(EnableVertexAttribArray(UniformAt(ViewMatrix)));
      Emit(UniformMatrix4fv(ProjectionMatrix, false, camera.projectionMatrix));
      Emit(EnableVertexAttribArray(UniformAt(ProjectionMatrix)));
    }

    /**
      * `renderScene`. It returns false where the source throws out of the object loop;
      * the calls made up to that point stay made. `hexToColor` is pure, so its result
      * is computed once here and handed to each object instead of once per object.
      */
    method RenderScene(objects: seq<SceneObject>, camera: CameraView, pointLight: Light, directionalLight: Light,
                       parameters: RenderParameters) returns (completed: bool)
      requires Valid()
      modifies this`trace, this`nextBuffer
      ensures var frame := FramePass(objects, camera, pointLight, directionalLight, parameters, old(nextBuffer));
        trace == old(trace) + frame.commands && nextBuffer == frame.nextBuffer && completed == frame.completed
      ensures Valid()
    {
      ghost var start := trace;
      SetFrame(camera, pointLight, directionalLight);
      ghost var header := HeaderCommands(camera, pointLight, directionalLight);
      ghost var afterHeader := trace;
      ghost var base := nextBuffer;

      var edgeColor := HexToColor(parameters.edgeColor);
      var i := 0;
      while i < |objects|
        invariant 0 <= i <= |objects|
        invariant ScenePass(objects[..i], parameters, edgeColor, base).completed
        invariant trace == afterHeader + ScenePass(objects[..i], parameters, edgeColor, base).commands
        invariant nextBuffer == ScenePass(objects[..i], parameters, edgeColor, base).nextBuffer
        invariant Valid()
      {
        ghost var before := ScenePass(objects[..i], parameters, edgeColor, base);
        ghost var last := ObjectPass(objects[i], parameters, edgeColor, before.nextBuffer);
        ScenePassExtends(objects, parameters, edgeColor, base, i);
        var ok := RenderObject(objects[i], parameters, edgeColor);
        Associative(afterHeader, before.commands, last.commands);
        if !ok {
          ScenePassStops(objects, parameters, edgeColor, base, i + 1);
          Associative(start, header, ScenePass(objects, parameters, edgeColor, base).commands);
          return false;
        }
        i := i + 1;
      }
      assert objects[..i] == objects;
      Associative(start, header, ScenePass(objects, parameters, edgeColor, base).commands);
      completed := true;
    }
  }

  lemma Associative(a: seq<Command>, b: seq<Command>, c: seq<Command>)
    ensures (a + b) + c == a + (b + c)
  {
  }

  /** One more round of the object loop, from a pass that has not stopped. */
  lemma ScenePassExtends(objects: seq<SceneObject>, parameters: RenderParameters, edge: Option<Color>, base: nat, i: nat)
    requires i < |objects|
    requires ScenePass(objects[..i], parameters, edge, base).completed
    ensures var before := ScenePass(objects[..i], parameters, edge, base);
      var last := ObjectPass(objects[i], parameters, edge, before.nextBuffer);
      ScenePass(objects[..i + 1], parameters, edge, base) == Pass(before.commands + last.commands, last.nextBuffer, last.completed)
  {
    assert objects[..i + 1][..i] == objects[..i];
  }

  /** Once the loop has stopped, the objects after the one that threw add nothing. */
  lemma {:induction false} ScenePassStops(objects: seq<SceneObject>, parameters: RenderParameters, edge: Option<Color>, base: nat, n: nat)
    requires 0 < n <= |objects|
    requires !ScenePass(objects[..n], parameters, edge, base).completed
    ensures ScenePass(objects, parameters, edge, base) == ScenePass(objects[..n], parameters, edge, base)
    decreases |objects| - n
  {
    if n < |objects| {
      assert objects[..n + 1][..n] == objects[..n];
      ScenePassStops(objects, parameters, edge, base, n + 1);
    } else {
      assert objects[..n] == objects;
    }
  }

  /** The calls a frame is tallied by: filled draws, wireframe draws, buffer creations and deletions. */
  datatype Kind = FilledDraw | WireframeDraw | BufferCreation | BufferDeletion

  predicate OfKind(c: Command, k: Kind)
  {
    match k
    case FilledDraw => c.DrawArrays? && c.mode == Triangles
    case WireframeDraw => c.DrawArrays? && c.mode == LineLoop
    case BufferCreation => c.CreateBuffer?
    case BufferDeletion => c.DeleteBuffer?
  }

  /** How many calls of kind `k` appear in `cmds`. */
  function CountOf(cmds: seq<Command>, k: Kind): nat
    decreases |cmds|
  {
    if |cmds| == 0 then 0
    else CountOf(cmds[..|cmds| - 1], k) + (if OfKind(cmds[|cmds| - 1], k) then 1 else 0)
  }

  lemma {:induction false} CountOfAppend(a: seq<Command>, b: seq<Command>, k: Kind)
    ensures CountOf(a + b, k) == CountOf(a, k) + CountOf(b, k)
    decreases |b|
  {
    if |b| == 0 {
      assert a + b == a;
    } else {
      assert (a + b)[..|a + b| - 1] == a + b[..|b| - 1];
      CountOfAppend(a, b[..|b| - 1], k);
    }
  }

  lemma {:induction false} CountOfNone(cmds: seq<Command>, k: Kind)
    requires forall i :: 0 <= i < |cmds| ==> !OfKind(cmds[i], k)
    ensures CountOf(cmds, k) == 0
    decreases |cmds|
  {
    if |cmds| > 0 {
      CountOfNone(cmds[..|cmds| - 1], k);
    }
  }

  /** The visible objects of `objects`, in order. */
  function Visible(objects: seq<SceneObject>): (r: seq<SceneObject>)
    ensures |r| <= |objects|
    ensures forall o :: o in r ==> o.visible && o in objects
    decreases |objects|
  {
    if |objects| == 0 then []
    else
      var last := objects[|objects| - 1];
      Visible(objects[..|objects| - 1]) + (if last.visible then [last] else [])
  }

  /** How many calls of kind `k` the callback makes for one visible object that does not throw. */
  function PerObject(parameters: RenderParameters, k: Kind): nat
  {
    match k
    case FilledDraw => if parameters.drawPolygons then 1 else 0
    case WireframeDraw => if parameters.drawEdges then 1 else 0
    case BufferCreation => 3
    case BufferDeletion => 1
  }

  lemma MaterialCount(o: SceneObject, parameters: RenderParameters, k: Kind)
    ensures CountOf(MaterialCommands(o, parameters), k) == 0
  {
    CountOfNone(MaterialCommands(o, parameters), k);
  }

  lemma BufferCount(buffer: nat, data: seq<real>, attribute: Attribute, size: nat, k: Kind)
    ensures CountOf(BufferCommands(buffer, data, attribute, size), k) == if k == BufferCreation then 1 else 0
  {
    var rest := [BindArrayBuffer(buffer), BufferStaticData(data), VertexAttribPointer(attribute, size),
                 EnableVertexAttribArray(AttributeAt(attribute))];
    assert BufferCommands(buffer, data, attribute, size) == [CreateBuffer(buffer)] + rest;
    CountOfAppend([CreateBuffer(buffer)], rest, k);
    CountOfNone(rest, k);
  }

  lemma GeometryCount(o: SceneObject, base: nat, k: Kind)
    ensures CountOf(GeometryCommands(o, base), k) == if k == BufferCreation then 3 else 0
  {
    var b0 := BufferCommands(base, o.vertices, VertexPosition, 3);
    var b1 := BufferCommands(base + 1, o.normals, VertexNormal, 3);
    var b2 := BufferCommands(base + 2, o.textureCoordinates, TexturePosition, 2);
    BufferCount(base, o.vertices, VertexPosition, 3, k);
    BufferCount(base + 1, o.normals, VertexNormal, 3, k);
    BufferCount(base + 2, o.textureCoordinates, TexturePosition, 2, k);
    CountOfAppend(b0, b1, k);
    CountOfAppend(b0 + b1, b2, k);
  }

  lemma PolygonCount(o: SceneObject, parameters: RenderParameters, k: Kind)
    ensures CountOf(PolygonCommands(o, parameters), k) == if k == FilledDraw && parameters.drawPolygons then 1 else 0
  {
    if parameters.drawPolygons {
      var setup := [Uniform1i(UseLighting, LightingFlag(o, parameters)), PolygonOffset(0.0, 0.0)];
      assert PolygonCommands(o, parameters) == setup + [DrawArrays(Triangles, 0, VertexCount(o))];
      CountOfNone(setup, k);
    }
  }

  lemma EdgeCount(o: SceneObject, edge: Color, k: Kind)
    ensures CountOf(EdgeCommands(o, edge), k) == if k == WireframeDraw then 1 else 0
  {
    var setup := [Uniform3f(MaterialDiffuse, edge.r, edge.g, edge.b), Uniform1i(UseLighting, 0), Uniform1i(UseTexture, 0),
                  PolygonOffset(1.0, 1.0)];
    assert EdgeCommands(o, edge) == setup + [DrawArrays(LineLoop, 0, VertexCount(o))];
    CountOfNone(setup, k);
  }

  lemma BodyCount(o: SceneObject, parameters: RenderParameters, base: nat, k: Kind)
    ensures CountOf(ObjectBody(o, parameters, base), k) ==
            (if k == BufferCreation then 3 else 0) + (if k == FilledDraw && parameters.drawPolygons then 1 else 0)
  {
    MaterialCount(o, parameters, k);
    GeometryCount(o, base, k);
    PolygonCount(o, parameters, k);
    CountOfAppend(MaterialCommands(o, parameters), GeometryCommands(o, base), k);
    CountOfAppend(MaterialCommands(o, parameters) + GeometryCommands(o, base), PolygonCommands(o, parameters), k);
  }

  /**
    * A visible object that does not throw gets one filled draw when `drawPolygons` is set,
    * one wireframe draw when `drawEdges` is set, three new buffers and one deletion.
    */
  lemma ObjectCounts(o: SceneObject, parameters: RenderParameters, edge: Option<Color>, base: nat, k: Kind)
    requires o.visible && ObjectPass(o, parameters, edge, base).completed
    ensures CountOf(ObjectPass(o, parameters, edge, base).commands, k) == PerObject(parameters, k)
    ensures ObjectPass(o, parameters, edge, base).nextBuffer == base + 3
  {
    var body := ObjectBody(o, parameters, base);
    BodyCount(o, parameters, base, k);
    var tail := ObjectTail(o, parameters, edge, base).value;
    assert ObjectPass(o, parameters, edge, base).commands == body + tail;
    CountOfAppend(body, tail, k);
    if parameters.drawEdges {
      var parsed := edge.value;
      assert tail == EdgeCommands(o, parsed) + [DeleteBuffer(base)];
      EdgeCount(o, parsed, k);
      CountOfAppend(EdgeCommands(o, parsed), [DeleteBuffer(base)], k);
    }
  }

  /** Hidden objects make no call: the frame is the one the visible objects alone would give. */
  lemma {:induction false} InvisibleObjectsSkipped(objects: seq<SceneObject>, parameters: RenderParameters, edge: Option<Color>, base: nat)
    ensures ScenePass(objects, parameters, edge, base) == ScenePass(Visible(objects), parameters, edge, base)
    decreases |objects|
  {
    if |objects| > 0 {
      var init := objects[..|objects| - 1];
      var last := objects[|objects| - 1];
      InvisibleObjectsSkipped(init, parameters, edge, base);
      if last.visible {
        var v := Visible(objects);
        assert v == Visible(init) + [last];
        assert v[..|v| - 1] == Visible(init);
      } else {
        assert Visible(objects) == Visible(init);
        var before := ScenePass(init, parameters, edge, base);
        assert before.completed ==> before.commands + [] == before.commands;
      }
    }
  }

  /** An object throws exactly when it is visible, the wireframe is on and the edge colour does not parse. */
  lemma ObjectThrows(o: SceneObject, parameters: RenderParameters, edge: Option<Color>, base: nat)
    ensures !ObjectPass(o, parameters, edge, base).completed <==>
            o.visible && parameters.drawEdges && edge.None?
  {
  }

  /**
    * The frame runs to its end unless the wireframe is on, the edge colour does not
    * parse and at least one object is visible.
    */
  lemma {:induction false} SceneCompletes(objects: seq<SceneObject>, parameters: RenderParameters, edge: Option<Color>, base: nat)
    ensures ScenePass(objects, parameters, edge, base).completed <==>
            !(parameters.drawEdges && edge.None? && |Visible(objects)| > 0)
    decreases |objects|
  {
    if |objects| > 0 {
      var init := objects[..|objects| - 1];
      var last := objects[|objects| - 1];
      SceneCompletes(init, parameters, edge, base);
      var before := ScenePass(init, parameters, edge, base);
      if before.completed {
        ObjectThrows(last, parameters, edge, before.nextBuffer);
      }
    }
  }

  /** Counting `m` more objects' worth of calls onto `n` objects' worth. */
  lemma CountStep(before: seq<Command>, last: seq<Command>, k: Kind, n: nat, m: nat, c: nat)
    requires CountOf(before, k) == n * c && CountOf(last, k) == m * c
    ensures CountOf(before + last, k) == (n + m) * c
  {
    CountOfAppend(before, last, k);
  }

  /** The last object of a scene that runs to its end, and the pass before it. */
  lemma SceneSplit(objects: seq<SceneObject>, parameters: RenderParameters, edge: Option<Color>, base: nat)
    requires |objects| > 0 && ScenePass(objects, parameters, edge, base).completed
    ensures var init := objects[..|objects| - 1];
      var before := ScenePass(init, parameters, edge, base);
      var last := ObjectPass(objects[|objects| - 1], parameters, edge, before.nextBuffer);
      && before.completed && last.completed
      && ScenePass(objects, parameters, edge, base) == Pass(before.commands + last.commands, last.nextBuffer, true)
      && |Visible(objects)| == |Visible(init)| + (if objects[|objects| - 1].visible then 1 else 0)
  {
    assert objects[..|objects|] == objects;
    ScenePassExtends(objects, parameters, edge, base, |objects| - 1);
  }

  /** Counting the last object of a scene onto the count of the objects before it. */
  lemma SceneCountsStep(objects: seq<SceneObject>, parameters: RenderParameters, edge: Option<Color>, base: nat, k: Kind)
    requires |objects| > 0 && ScenePass(objects, parameters, edge, base).completed
    requires var init := objects[..|objects| - 1];
      CountOf(ScenePass(init, parameters, edge, base).commands, k) == |Visible(init)| * PerObject(parameters, k)
    ensures CountOf(ScenePass(objects, parameters, edge, base).commands, k) == |Visible(objects)| * PerObject(parameters, k)
  {
    var init := objects[..|objects| - 1];
    var o := objects[|objects| - 1];
    SceneSplit(objects, parameters, edge, base);
    var before := ScenePass(init, parameters, edge, base);
    var last := ObjectPass(o, parameters, edge, before.nextBuffer);
    var m := if o.visible then 1 else 0;
    if o.visible {
      ObjectCounts(o, parameters, edge, before.nextBuffer, k);
    }
    CountStep(before.commands, last.commands, k, |Visible(init)|, m, PerObject(parameters, k));
  }

  /**
    * A frame that runs to its end makes, for each visible object, one filled draw when
    * `drawPolygons` is set, one wireframe draw when `drawEdges` is set, three buffer
    * creations and one deletion.
    */
  lemma {:induction false} SceneCounts(objects: seq<SceneObject>, parameters: RenderParameters, edge: Option<Color>, base: nat, k: Kind)
    requires ScenePass(objects, parameters, edge, base).completed
    ensures CountOf(ScenePass(objects, parameters, edge, base).commands, k) == |Visible(objects)| * PerObject(parameters, k)
    decreases |objects|
  {
    if |objects| > 0 {
      SceneSplit(objects, parameters, edge, base);
      SceneCounts(objects[..|objects| - 1], parameters, edge, base, k);
      SceneCountsStep(objects, parameters, edge, base, k);
    }
  }

  /** A frame that runs to its end hands out three buffer names per visible object. */
  lemma {:induction false} SceneBuffers(objects: seq<SceneObject>, parameters: RenderParameters, edge: Option<Color>, base: nat)
    requires ScenePass(objects, parameters, edge, base).completed
    ensures ScenePass(objects, parameters, edge, base).nextBuffer == base + 3 * |Visible(objects)|
    decreases |objects|
  {
    if |objects| > 0 {
      var init := objects[..|objects| - 1];
      SceneSplit(objects, parameters, edge, base);
      SceneBuffers(init, parameters, edge, base);
    }
  }

  /**
    * The frame set-up starts with the colour and depth clears, sends the point light's
    * position, as call 6, with w = 1 and the directional light's, as call 10, with w = 0,
    * and makes no draw and no buffer creation or deletion.
    */
  lemma HeaderLayout(camera: CameraView, pointLight: Light, directionalLight: Light, k: Kind)
    ensures var h := HeaderCommands(camera, pointLight, directionalLight);
      && |h| == 15 && h[0] == Clear(ColorBuffer) && h[1] == Clear(DepthBuffer)
      && (forall i :: 0 <= i < |h| && h[i].Uniform4f? ==>
            || (h[i].u == LightPosition(PointSlot) && h[i].w == 1.0)
            || (h[i].u == LightPosition(DirectionalSlot) && h[i].w == 0.0))
      && h[6] == Uniform4f(LightPosition(PointSlot), pointLight.position.x, pointLight.position.y, pointLight.position.z, 1.0)
      && h[10] == Uniform4f(LightPosition(DirectionalSlot), directionalLight.position.x, directionalLight.position.y,
                            directionalLight.position.z, 0.0)
      && CountOf(h, k) == 0
  {
    CountOfNone(HeaderCommands(camera, pointLight, directionalLight), k);
  }

  /** What a whole frame that runs to its end amounts to: every count is per visible object. */
  lemma FrameCounts(objects: seq<SceneObject>, camera: CameraView, pointLight: Light, directionalLight: Light,
                    parameters: RenderParameters, base: nat, k: Kind)
    requires FramePass(objects, camera, pointLight, directionalLight, parameters, base).completed
    ensures var frame := FramePass(objects, camera, pointLight, directionalLight, parameters, base);
      && CountOf(frame.commands, k) == |Visible(objects)| * PerObject(parameters, k)
      && frame.nextBuffer == base + 3 * |Visible(objects)|
  {
    var edge := HexToColor(parameters.edgeColor);
    HeaderLayout(camera, pointLight, directionalLight, k);
    SceneCounts(objects, parameters, edge, base, k);
    SceneBuffers(objects, parameters, edge, base);
    CountOfAppend(HeaderCommands(camera, pointLight, directionalLight), ScenePass(objects, parameters, edge, base).commands, k);
  }

  /** Every draw of an object starts at vertex 0 and covers `vertices.length / 3` vertices. */
  lemma DrawsCoverVertices(o: SceneObject, parameters: RenderParameters, edge: Option<Color>, base: nat)
    ensures var cmds := ObjectPass(o, parameters, edge, base).commands;
      forall i :: 0 <= i < |cmds| && cmds[i].DrawArrays? ==> cmds[i].first == 0 && cmds[i].count == |o.vertices| / 3
  {
    if o.visible {
      var body := ObjectBody(o, parameters, base);
      var tail := ObjectTail(o, parameters, edge, base);
      var rest: seq<Command> := if tail.Some? then tail.value else [];
      assert forall i :: 0 <= i < |body| && body[i].DrawArrays? ==> body[i].count == VertexCount(o) && body[i].first == 0;
      assert forall i :: 0 <= i < |rest| && rest[i].DrawArrays? ==> rest[i].count == VertexCount(o) && rest[i].first == 0;
    }
  }

  /** The filled draw of an object comes before its wireframe draw. */
  lemma FilledBeforeWireframe(o: SceneObject, parameters: RenderParameters, edge: Option<Color>, base: nat)
    ensures var cmds := ObjectPass(o, parameters, edge, base).commands;
      forall i, j :: 0 <= i < |cmds| && 0 <= j < |cmds| && OfKind(cmds[i], FilledDraw) && OfKind(cmds[j], WireframeDraw) ==> i < j
  {
    if o.visible {
      var body := ObjectBody(o, parameters, base);
      var tail := ObjectTail(o, parameters, edge, base);
      var rest: seq<Command> := if tail.Some? then tail.value else [];
      assert forall i :: 0 <= i < |body| ==> !OfKind(body[i], WireframeDraw);
      assert forall i :: 0 <= i < |rest| ==> !OfKind(rest[i], FilledDraw);
    }
  }

  /**
    * Of the three buffers an object creates, only the vertex buffer `base` is deleted,
    * by the object's last call: the normal and texture-coordinate buffers stay alive.
    */
  lemma OnlyVertexBufferDeleted(o: SceneObject, parameters: RenderParameters, edge: Option<Color>, base: nat)
    requires o.visible && ObjectPass(o, parameters, edge, base).completed
    ensures var cmds := ObjectPass(o, parameters, edge, base).commands;
      && cmds[|cmds| - 1] == DeleteBuffer(base)
      && (exists i :: 0 <= i < |cmds| - 2 && cmds[i] == CreateBuffer(base) && cmds[i + 2] == BufferStaticData(o.vertices))
      && CreateBuffer(base + 1) in cmds && CreateBuffer(base + 2) in cmds
      && (forall i :: 0 <= i < |cmds| && cmds[i].DeleteBuffer? ==> cmds[i].buffer == base)
  {
    var material := MaterialCommands(o, parameters);
    var cmds := ObjectPass(o, parameters, edge, base).commands;
    var body := ObjectBody(o, parameters, base);
    var tail := ObjectTail(o, parameters, edge, base).value;
    assert cmds == body + tail;
    assert body[|material|] == CreateBuffer(base) && body[|material| + 2] == BufferStaticData(o.vertices);
    assert cmds[|material|] == CreateBuffer(base) && cmds[|material| + 2] == BufferStaticData(o.vertices);
    assert cmds[|material| + 5] == CreateBuffer(base + 1);
    assert cmds[|material| + 10] == CreateBuffer(base + 2);
    assert forall i :: 0 <= i < |body| ==> !body[i].DeleteBuffer?;
    assert forall i :: 0 <= i < |tail| && tail[i].DeleteBuffer? ==> tail[i].buffer == base;
  }

  /**
    * An object sets the `u_texture` unit, to its own texture, exactly when its texture
    * is not -1, and `u_useTexture` says the same.
    */
  lemma TextureOnlyWhenBound(o: SceneObject, parameters: RenderParameters, edge: Option<Color>, base: nat)
    requires o.visible
    ensures var cmds := ObjectPass(o, parameters, edge, base).commands;
      && (o.texture != -1 <==> exists i :: 0 <= i < |cmds| && cmds[i].Uniform1i? && cmds[i].u == TextureSampler)
      && (forall i :: 0 <= i < |cmds| && cmds[i].Uniform1i? && cmds[i].u == TextureSampler ==> cmds[i].i == o.texture)
      && cmds[8] == Uniform1i(UseTexture, if o.texture == -1 then 0 else 1)
  {
    var material := MaterialCommands(o, parameters);
    var others := GeometryCommands(o, base) + PolygonCommands(o, parameters);
    var tail := ObjectTail(o, parameters, edge, base);
    var rest: seq<Command> := if tail.Some? then tail.value else [];
    var cmds := ObjectPass(o, parameters, edge, base).commands;
    assert cmds == material + (others + rest);
    assert forall i :: 0 <= i < |others + rest| ==> !((others + rest)[i].Uniform1i? && (others + rest)[i].u == TextureSampler);
    if o.texture != -1 {
      assert cmds[9] == Uniform1i(TextureSampler, o.texture);
    }
  }

  /** Likewise `u_textureScale` is set, to the object's own scale, exactly when its texture is not -1. */
  lemma TextureScaleOnlyWhenBound(o: SceneObject, parameters: RenderParameters, edge: Option<Color>, base: nat)
    requires o.visible
    ensures var cmds := ObjectPass(o, parameters, edge, base).commands;
      && (o.texture != -1 <==> exists i :: 0 <= i < |cmds| && cmds[i].Uniform1f? && cmds[i].u == TextureScale)
      && (forall i :: 0 <= i < |cmds| && cmds[i].Uniform1f? && cmds[i].u == TextureScale ==> cmds[i].f == o.textureScale)
  {
    var material := MaterialCommands(o, parameters);
    var others := GeometryCommands(o, base) + PolygonCommands(o, parameters);
    var tail := ObjectTail(o, parameters, edge, base);
    var rest: seq<Command> := if tail.Some? then tail.value else [];
    var cmds := ObjectPass(o, parameters, edge, base).commands;
    assert cmds == material + (others + rest);
    assert forall i :: 0 <= i < |others + rest| ==> !((others + rest)[i].Uniform1f? && (others + rest)[i].u == TextureScale);
    if o.texture != -1 {
      assert cmds[10] == Uniform1f(TextureScale, o.textureScale);
    }
  }

  /** `u_useLighting` is only ever set to 1 when lighting is on and the object is not the point light. */
  lemma LightingFlagValues(o: SceneObject, parameters: RenderParameters, edge: Option<Color>, base: nat)
    ensures var cmds := ObjectPass(o, parameters, edge, base).commands;
      forall i :: 0 <= i < |cmds| && cmds[i].Uniform1i? && cmds[i].u == UseLighting ==>
        cmds[i].i == 0 || (cmds[i].i == 1 && parameters.drawLight && !o.isPointLight)
  {
    if o.visible {
      var front := MaterialCommands(o, parameters) + GeometryCommands(o, base);
      var polygons := PolygonCommands(o, parameters);
      var tail := ObjectTail(o, parameters, edge, base);
      var rest: seq<Command> := if tail.Some? then tail.value else [];
      assert ObjectPass(o, parameters, edge, base).commands == front + (polygons + rest);
      assert forall i :: 0 <= i < |front| ==> !(front[i].Uniform1i? && front[i].u == UseLighting);
      assert forall i :: 0 <= i < |rest| && rest[i].Uniform1i? && rest[i].u == UseLighting ==> rest[i].i == 0;
    }
  }

  /**
    * With the filled pass on, it follows the object's buffers directly: the lighting flag,
    * the polygon offset (0, 0) and the triangle draw, with nothing in between.
    */
  lemma FilledPass(o: SceneObject, parameters: RenderParameters, edge: Option<Color>, base: nat)
    requires o.visible && parameters.drawPolygons
    ensures var cmds := ObjectPass(o, parameters, edge, base).commands; var m := |MaterialCommands(o, parameters)|;
      && m + 18 <= |cmds|
      && cmds[m + 15..m + 18] == [Uniform1i(UseLighting, LightingFlag(o, parameters)), PolygonOffset(0.0, 0.0),
                                  DrawArrays(Triangles, 0, |o.vertices| / 3)]
  {
    var material := MaterialCommands(o, parameters);
    var geometry := GeometryCommands(o, base);
    var tail := ObjectTail(o, parameters, edge, base);
    var rest: seq<Command> := if tail.Some? then tail.value else [];
    var cmds := ObjectPass(o, parameters, edge, base).commands;
    assert |geometry| == 15;
    assert cmds == (material + geometry) + (PolygonCommands(o, parameters) + rest);
    assert cmds[|material| + 15..|material| + 18] == PolygonCommands(o, parameters);
  }

  /**
    * The filled pass is lit when lighting is on and the object is not the point light:
    * the flag is 1 on the call just before the offset and the triangle draw.
    */
  lemma LitWhenAllowed(o: SceneObject, parameters: RenderParameters, edge: Option<Color>, base: nat)
    requires o.visible && parameters.drawPolygons && parameters.drawLight && !o.isPointLight
    ensures Uniform1i(UseLighting, 1) in ObjectPass(o, parameters, edge, base).commands
    ensures var cmds := ObjectPass(o, parameters, edge, base).commands; var m := |MaterialCommands(o, parameters)|;
      && m + 18 <= |cmds|
      && cmds[m + 15] == Uniform1i(UseLighting, 1)
      && cmds[m + 16] == PolygonOffset(0.0, 0.0)
      && cmds[m + 17] == DrawArrays(Triangles, 0, |o.vertices| / 3)
  {
    FilledPass(o, parameters, edge, base);
    var cmds := ObjectPass(o, parameters, edge, base).commands;
    var m := |MaterialCommands(o, parameters)|;
    assert cmds[m + 15] == cmds[m + 15..m + 18][0];
    assert cmds[m + 16] == cmds[m + 15..m + 18][1];
    assert cmds[m + 17] == cmds[m + 15..m + 18][2];
  }

  /**
    * With the wireframe on, an object that does not throw ends with the wireframe pass:
    * the parsed edge colour as diffuse material, lighting and texturing off, the polygon
    * offset, the line-loop draw, and then the deletion of the vertex buffer.
    */
  lemma WireframeLast(o: SceneObject, parameters: RenderParameters, edge: Option<Color>, base: nat)
    requires o.visible && parameters.drawEdges && ObjectPass(o, parameters, edge, base).completed
    ensures edge.Some?
    ensures var cmds := ObjectPass(o, parameters, edge, base).commands; var parsed := edge.value;
      && |cmds| >= 6
      && cmds[|cmds| - 6..] == [Uniform3f(MaterialDiffuse, parsed.r, parsed.g, parsed.b), Uniform1i(UseLighting, 0),
                                Uniform1i(UseTexture, 0), PolygonOffset(1.0, 1.0),
                                DrawArrays(LineLoop, 0, |o.vertices| / 3), DeleteBuffer(base)]
  {
    var parsed := edge.value;
    var body := ObjectBody(o, parameters, base);
    var tail := EdgeCommands(o, parsed) + [DeleteBuffer(base)];
    var cmds := ObjectPass(o, parameters, edge, base).commands;
    assert cmds == body + tail;
    assert cmds[|cmds| - 6..] == tail;
  }

  /** The uniforms set once per frame: the camera position, both lights, the view and projection matrices. */
  predicate IsFrameUniform(u: Uniform)
  {
    u.CameraPosition? || u.LightDiffuse? || u.LightAmbient? || u.LightSpecular? || u.LightPosition?
    || u.ViewMatrix? || u.ProjectionMatrix?
  }

  /** The uniform a call sets a value for, if any. */
  function Target(c: Command): Option<Uniform>
  {
    match c
    case Uniform1i(u, _) => Some(u)
    case Uniform1f(u, _) => Some(u)
    case Uniform3f(u, _, _, _) => Some(u)
    case Uniform4f(u, _, _, _, _) => Some(u)
    case UniformMatrix4fv(u, _, _) => Some(u)
    case _ => None
  }

  predicate SetsFrameUniform(c: Command)
  {
    Target(c).Some? && IsFrameUniform(Target(c).value)
  }

  /** None of `cmds` sets a frame uniform. */
  predicate LeavesFrameUniforms(cmds: seq<Command>)
  {
    forall i :: 0 <= i < |cmds| ==> !SetsFrameUniform(cmds[i])
  }

  /** The frame set-up sets every frame uniform exactly once, and nothing else. */
  lemma HeaderSetsFrameUniformsOnce(camera: CameraView, pointLight: Light, directionalLight: Light)
    ensures var h := HeaderCommands(camera, pointLight, directionalLight);
      && (forall u :: IsFrameUniform(u) ==> exists i :: 0 <= i < |h| && Target(h[i]) == Some(u))
      && (forall i, j :: 0 <= i < j < |h| && Target(h[i]).Some? ==> Target(h[i]) != Target(h[j]))
      && (forall i :: 0 <= i < |h| && Target(h[i]).Some? ==> IsFrameUniform(Target(h[i]).value))
  {
    var h := HeaderCommands(camera, pointLight, directionalLight);
    forall u | IsFrameUniform(u)
      ensures exists i :: 0 <= i < |h| && Target(h[i]) == Some(u)
    {
      var at := match u
        case CameraPosition => 2
        case LightDiffuse(slot) => if slot == PointSlot then 3 else 7
        case LightAmbient(slot) => if slot == PointSlot then 4 else 8
        case LightSpecular(slot) => if slot == PointSlot then 5 else 9
        case LightPosition(slot) => if slot == PointSlot then 6 else 10
        case ViewMatrix => 11
        case _ => 13;
      assert Target(h[at]) == Some(u);
    }
  }

  /** An object's calls never set a frame uniform. */
  lemma ObjectLeavesFrameUniforms(o: SceneObject, parameters: RenderParameters, edge: Option<Color>, base: nat)
    ensures LeavesFrameUniforms(ObjectPass(o, parameters, edge, base).commands)
  {
    if o.visible {
      var body := ObjectBody(o, parameters, base);
      var tail := ObjectTail(o, parameters, edge, base);
      var rest: seq<Command> := if tail.Some? then tail.value else [];
      assert forall i :: 0 <= i < |body| ==> !SetsFrameUniform(body[i]);
      assert forall i :: 0 <= i < |rest| ==> !SetsFrameUniform(rest[i]);
    }
  }

  /** The object loop never sets a frame uniform. */
  lemma {:induction false} SceneLeavesFrameUniforms(objects: seq<SceneObject>, parameters: RenderParameters, edge: Option<Color>, base: nat)
    ensures LeavesFrameUniforms(ScenePass(objects, parameters, edge, base).commands)
    decreases |objects|
  {
    if |objects| > 0 {
      var init := objects[..|objects| - 1];
      SceneLeavesFrameUniforms(init, parameters, edge, base);
      var before := ScenePass(init, parameters, edge, base);
      if before.completed {
        var last := ObjectPass(objects[|objects| - 1], parameters, edge, before.nextBuffer);
        ObjectLeavesFrameUniforms(objects[|objects| - 1], parameters, edge, before.nextBuffer);
        var cmds := before.commands + last.commands;
        assert ScenePass(objects, parameters, edge, base).commands == cmds;
        forall i | 0 <= i < |cmds|
          ensures !SetsFrameUniform(cmds[i])
        {
          if i >= |before.commands| {
            assert cmds[i] == last.commands[i - |before.commands|];
          } else {
            assert cmds[i] == before.commands[i];
            assert !SetsFrameUniform(before.commands[i]);
          }
        }
      }
    }
  }

  /**
    * In a whole frame every frame uniform is set exactly once, within the first 15
    * calls, that is before any call made for an object.
    */
  lemma FrameUniformsOnce(objects: seq<SceneObject>, camera: CameraView, pointLight: Light, directionalLight: Light,
                          parameters: RenderParameters, base: nat, u: Uniform)
    requires IsFrameUniform(u)
    ensures var cmds := FramePass(objects, camera, pointLight, directionalLight, parameters, base).commands;
      && (exists i :: 0 <= i < 15 && i < |cmds| && Target(cmds[i]) == Some(u))
      && (forall i, j :: 0 <= i < |cmds| && 0 <= j < |cmds| && Target(cmds[i]) == Some(u) && Target(cmds[j]) == Some(u) ==> i == j)
      && (forall i :: 0 <= i < |cmds| && SetsFrameUniform(cmds[i]) ==> i < 15)
  {
    var h := HeaderCommands(camera, pointLight, directionalLight);
    var scene := ScenePass(objects, parameters, HexToColor(parameters.edgeColor), base).commands;
    var cmds := h + scene;
    HeaderSetsFrameUniformsOnce(camera, pointLight, directionalLight);
    SceneLeavesFrameUniforms(objects, parameters, HexToColor(parameters.edgeColor), base);
    assert |h| == 15;
    forall i | 15 <= i < |cmds|
      ensures !SetsFrameUniform(cmds[i])
    {
      assert cmds[i] == scene[i - 15];
      assert 0 <= i - 15 < |scene| && !SetsFrameUniform(scene[i - 15]);
    }
    forall i, j | 0 <= i < |cmds| && 0 <= j < |cmds| && Target(cmds[i]) == Some(u) && Target(cmds[j]) == Some(u)
      ensures i == j
    {
      assert SetsFrameUniform(cmds[i]) && SetsFrameUniform(cmds[j]);
      assert i < 15 && j < 15;
      assert cmds[i] == h[i] && cmds[j] == h[j];
    }
    var w :| 0 <= w < |h| && Target(h[w]) == Some(u);
    assert cmds[w] == h[w];
  }

  /** Objects are drawn in list order: a scene split in two is the first part's calls, then the second's. */
  lemma {:induction false} SceneInOrder(a: seq<SceneObject>, b: seq<SceneObject>, parameters: RenderParameters,
                                         edge: Option<Color>, base: nat)
    requires ScenePass(a, parameters, edge, base).completed
    ensures var first := ScenePass(a, parameters, edge, base);
      var second := ScenePass(b, parameters, edge, first.nextBuffer);
      ScenePass(a + b, parameters, edge, base) == Pass(first.commands + second.commands, second.nextBuffer, second.completed)
    decreases |b|
  {
    var first := ScenePass(a, parameters, edge, base);
    if |b| == 0 {
      assert a + b == a;
      assert first.commands + [] == first.commands;
    } else {
      var init := b[..|b| - 1];
      assert (a + b)[..|a + b| - 1] == a + init;
      assert (a + b)[|a + b| - 1] == b[|b| - 1];
      SceneInOrder(a, init, parameters, edge, base);
      var mid := ScenePass(init, parameters, edge, first.nextBuffer);
      if mid.completed {
        var last := ObjectPass(b[|b| - 1], parameters, edge, mid.nextBuffer);
        Associative(first.commands, mid.commands, last.commands);
      }
    }
  }

  /** A visible object's material: its colour as diffuse and specular, white ambient, the page's shininess. */
  lemma ObjectMaterial(o: SceneObject, parameters: RenderParameters, edge: Option<Color>, base: nat)
    requires o.visible
    ensures var cmds := ObjectPass(o, parameters, edge, base).commands;
      && |cmds| > 8
      && cmds[4] == Uniform3f(MaterialDiffuse, o.color.r, o.color.g, o.color.b)
      && cmds[5] == Uniform3f(MaterialAmbient, 1.0, 1.0, 1.0)
      && cmds[6] == Uniform3f(MaterialSpecular, o.color.r, o.color.g, o.color.b)
      && cmds[7] == Uniform1f(MaterialShininess, parameters.materialShininess)
  {
    var material := MaterialCommands(o, parameters);
    var tail := ObjectTail(o, parameters, edge, base);
    var rest: seq<Command> := if tail.Some? then tail.value else [];
    assert ObjectPass(o, parameters, edge, base).commands
        == material + (GeometryCommands(o, base) + PolygonCommands(o, parameters) + rest);
  }

  /** With both the filled and the wireframe pass off, a frame draws nothing. */
  lemma NoPassesNoDraws(objects: seq<SceneObject>, camera: CameraView, pointLight: Light, directionalLight: Light,
                        parameters: RenderParameters, base: nat)
    requires !parameters.drawPolygons && !parameters.drawEdges
    ensures var frame := FramePass(objects, camera, pointLight, directionalLight, parameters, base);
      frame.completed && CountOf(frame.commands, FilledDraw) == 0 && CountOf(frame.commands, WireframeDraw) == 0
  {
    SceneCompletes(objects, parameters, HexToColor(parameters.edgeColor), base);
    FrameCounts(objects, camera, pointLight, directionalLight, parameters, base, FilledDraw);
    FrameCounts(objects, camera, pointLight, directionalLight, parameters, base, WireframeDraw);
  }
}
