# bRenderer core in Dafny

This project models the CPU-side logic of bRenderer, a small C++ OpenGL
rendering framework. It covers these parts:

- the asset registries of the resource manager (`ResourceManager`), of the
  older `AssetManagement` class, and of the global `bRenderer` helpers;
- the renderer's life cycle, its asset front end and its per-group light
  lookup (`Renderer`, `Renderer_desktop`);
- the render queue, which sorts opaque calls by key and transparent calls
  by distance;
- the matrix stack, with its model and normal matrices;
- the OBJ/MTL loader callbacks that build `ModelData` groups, and the
  bounding box and data copies of `Geometry`;
- the GLSL builders of `ShaderSource` and the generated shader of
  `ShaderData`;
- the keyed property stores of `Properties` and `Material`;
- the logger's tags and lines;
- the input handling of the demo project (`RenderProject` / `ProjectMain`).

Each C++ concept has a Dafny counterpart:

- A `std::shared_ptr` is a `Ptr<T>` that is `Null` or points at a value.
- A registry `std::map<std::string, Ptr>` is a Dafny `map`. `map::operator[]`
  is modelled with its default-insertion effect.
- A newly constructed asset is a parameter of the operation that makes it.
- File contents, file existence and shader validity are inputs.
- Generated GLSL is a sequence of tokens: named fragments, decimal numbers
  and braces. `ShaderText.Render` gives their characters.
- Matrices are kept as words of factors: a product is the sequence of
  matrices it multiplies.
- `ResourceManager`, the older `AssetManagement` and the `Renderer` front end
  repeat the same create, lookup and load code in the C++ source. Each class
  keeps its own members here, so several of them carry the same contract;
  all of them delegate to the one `Registry` definition.

## Model

| member | source | states |
|---|---|---|
| Common.NatToString | bRenderer/implementation/Renderer.cpp:368 | `std::to_string` / `lexical_cast` of a count is a non-empty run of decimal digits with no leading zero |
| Common.ParseNatToString | bRenderer/implementation/RenderQueue.cpp:14 | reading the decimal text of a number back gives the number: the text loses nothing |
| Common.NatToStringInjective | bRenderer/implementation/Renderer.cpp:367-372 | two numbers print the same text exactly when they are equal, so numbered uniform names never collide |
| Common.Ushort | bRenderer/implementation/ModelData.cpp:272 | pushing `vboIndices.size()` into an unsigned-short index buffer keeps values below 65536 unchanged and otherwise wraps modulo 65536 |
| RawName.FindLastOf | bRenderer/implementation/ResourceManager.cpp:776-781 | `find_last_of` answers an index holding one of the characters with none after it, or no index when no character occurs |
| RawName.DirPart | bRenderer/implementation/ResourceManager.cpp:777-782 | the part stripped is a prefix of the file name that is empty or ends in a separator, and no separator follows it |
| RawName.GetRawNameIsRawSplit | bRenderer/implementation/ResourceManager.cpp:774-791 | the raw name splits the file name into directory, raw name and extension, as the independent `IsRawSplit` description says |
| RawName.RawSplitIsGetRawName | bRenderer/implementation/ResourceManager.cpp:774-791 | any split meeting `IsRawSplit` is the one `getRawName` computes, so the description determines the result |
| RawName.RawNameHasNoSeparator | bRenderer/implementation/AssetManagement.cpp:488-505 | a raw name never contains a path separator |
| KeyedStore.Get | bRenderer/headers/Properties.h:32 | reading a key answers its value, or the default for an absent key; the key is then present with that value, and every other key keeps its value |
| KeyedStore.Set | bRenderer/headers/Properties.h:123 | writing a key adds it to the keys and leaves every other key's value as it was |
| KeyedStore.SetThenGet | bRenderer/headers/Material.h:72 | a read after a write of the same key answers the written value |
| KeyedStore.SetOtherGet | bRenderer/headers/Material.h:43 | a write to one key does not change what a read of another key answers |
| KeyedStore.GetTwice | bRenderer/headers/Properties.h:68 | reading twice is the same as reading once |
| KeyedStore.GetThenSet | bRenderer/headers/Properties.h:68 | writing after a read gives the same store as the write alone |
| Registry.Get | bRenderer/implementation/ResourceManager.cpp:579-584 | lookup tests `count` before `operator[]`, so it answers the stored pointer, or `Null` for an absent name, and inserts nothing |
| Registry.Subscript | bRenderer/implementation/ResourceManager.cpp:27-28 | `map[name]` answers the stored pointer; an absent name is inserted as `Null` |
| Registry.Create | bRenderer/implementation/ResourceManager.cpp:307-315 | create answers a stored non-null asset and changes nothing; otherwise the new asset is stored; either way the name then holds the answer and other names keep theirs |
| Registry.Add | bRenderer/implementation/ResourceManager.cpp:488-493 | add reports success exactly when the name holds no asset; an entry already present, even a null one, is never overwritten, and no other entry changes |
| Registry.Remove | bRenderer/implementation/ResourceManager.cpp:685-688 | after remove the name is absent and every other entry is kept |
| Registry.CreateIdempotent | bRenderer/implementation/ResourceManager.cpp:307-315 | a second create under the same name, with any new asset, answers the first asset and changes nothing |
| Registry.RemoveUndoesCreate | bRenderer/implementation/ResourceManager.cpp:685-688 | removing a name just created from an absent slot restores the original registry |
| Registry.AddAfterCreateFails | bRenderer/implementation/ResourceManager.cpp:488-493 | an add under a name that create has just filled is refused |
| Registry.AddThenGet | bRenderer/implementation/ResourceManager.cpp:579-584 | an add under an absent name is found by a later lookup, and removing it restores the registry |
| Registry.EmptyBank | bRenderer/implementation/ResourceManager.cpp:750-772 | the cleared bank holds exactly the given kinds, each with an empty registry |
| Registry.WithSlot | bRenderer/implementation/ResourceManager.cpp:307-315 | replacing one kind's registry keeps the bank's kinds and every other registry |
| Registry.BankCreate | bRenderer/implementation/ResourceManager.cpp:307-328 | creating in one kind meets `CreatedIn` for that kind, and the other kinds are unchanged |
| Registry.BankCreateShader | bRenderer/implementation/ResourceManager.cpp:371-389 | a valid new shader is stored as a create; an invalid one gives `Null` and leaves the bank unchanged |
| Registry.BankShaderByName | bRenderer/implementation/ResourceManager.cpp:145-158 | a shader is answered exactly when one is registered under the name or the new one is valid; then create semantics hold; otherwise nothing changes |
| Registry.BankAdd | bRenderer/implementation/ResourceManager.cpp:488-577 | add in one kind succeeds exactly on an empty slot and leaves the other kinds unchanged |
| Registry.BankRemove | bRenderer/implementation/ResourceManager.cpp:685-748 | remove in one kind deletes that name only |
| Registry.BankSubscript | bRenderer/implementation/ResourceManager.cpp:27-28 | subscripting answers the lookup, adds the name to that kind's keys, keeps its other entries, stores `Null` under a new name, and leaves the other kinds unchanged |
| Registry.BankLoad | bRenderer/implementation/ResourceManager.cpp:102-113 | loading a file creates under the raw name of the file |
| Registry.BankLoadIsCreate | bRenderer/implementation/ResourceManager.cpp:102-113 | load is create under `getRawName(fileName)`, so loading twice reuses the first asset |
| Registry.LoadSharesRawName | bRenderer/implementation/ResourceManager.cpp:53-113 | a second load of a file with the same raw name answers the first asset and changes nothing, whatever the directory or extension |
| Registry.ShaderByNameStable | bRenderer/implementation/ResourceManager.cpp:160-169 | once a shader is registered under a name, a later request, valid or not, answers it and changes nothing |
| Registry.TextureKeys | bRenderer/implementation/Material.cpp:6-11 | the names the texture loads of `initialize` register are the raw names of the material's texture files, and only those |
| Registry.FileKeys | bRenderer/implementation/Material.cpp:6-11 | the raw name of every file of a list is among its keys |
| Registry.FileKeysOnly | bRenderer/implementation/Material.cpp:6-11 | every key of a list of files is the raw name of one of them |
| Registry.LoadTextures | bRenderer/implementation/Material.cpp:6-11 | loading texture files one after another, each with `loadTexture`, changes only the texture registry |
| Registry.LoadTexturesLoadsKeys | bRenderer/implementation/Material.cpp:6-11 | after the loads every raw name holds a texture: one already registered is kept, a null or absent one gets the texture built for it, and no other name changes |
| Registry.KeysLoadedUnique | bRenderer/implementation/Material.cpp:6-11 | that outcome fixes the texture registry: two results of loading the same names from the same start hold the same textures |
| Registry.LoadTextureKeys | bRenderer/implementation/Material.cpp:6-11 | loading a set of raw names all at once, the independent description, meets the same outcome |
| Registry.LoadTexturesInAnyOrder | bRenderer/implementation/Material.cpp:6-11 | the textures after the loads depend only on which raw names are loaded, not on the order of the files |
| Registry.BankFillMaterial | bRenderer/implementation/Material.cpp:4-17 | a new material stored under its name has its texture files loaded, and the kinds other than materials and textures are unchanged |
| Registry.BankCreateMaterial | bRenderer/implementation/ResourceManager.cpp:193-201 | a registered material is answered and nothing changes; otherwise the new material is stored, its texture files are loaded, and no other kind changes |
| Registry.CreateMaterialLoadsTexture | bRenderer/implementation/Material.cpp:6-11 | every texture file a new material names is registered with a non-null texture afterwards |
| ResourceManager.Create | bRenderer/implementation/ResourceManager.cpp:225-328 | every `create*` without material data answers an existing asset of its kind or stores the new one, in that registry only |
| ResourceManager.CreateShader | bRenderer/implementation/ResourceManager.cpp:371-389 | an invalid shader gives `Null` and changes nothing; a valid one follows the create semantics; the manager's other fields are kept |
| ResourceManager.Add | bRenderer/implementation/ResourceManager.cpp:488-577 | add succeeds exactly when the name holds no asset; a failed add changes nothing; an existing entry is never overwritten; other kinds are unchanged |
| ResourceManager.Remove | bRenderer/implementation/ResourceManager.cpp:685-748 | remove deletes the name from its kind and leaves the other kinds and fields unchanged |
| ResourceManager.Clear | bRenderer/implementation/ResourceManager.cpp:750-772 | clear leaves every registry of the manager's kinds empty and restores the default ambient colour and shader versions |
| ResourceManager.ClearForgets | bRenderer/implementation/ResourceManager.cpp:750-772 | after clear a create builds its asset anew, and clearing twice is clearing once |
| ResourceManager.LoadObjModel | bRenderer/implementation/ResourceManager.cpp:53-100 | all three `loadObjModel` overloads key the model by the raw name of the file and keep an existing model |
| ResourceManager.LoadTexture | bRenderer/implementation/ResourceManager.cpp:102-114 | a texture is keyed by the raw file name and an existing one is kept |
| ResourceManager.LoadFont | bRenderer/implementation/ResourceManager.cpp:132-143 | a font is keyed by the raw file name and an existing one is kept |
| ResourceManager.CubeMapFiles | bRenderer/implementation/ResourceManager.cpp:116-130 | six or more file names give the first six as file sources; fewer give no faces |
| ResourceManager.CubeMapImages | bRenderer/implementation/ResourceManager.cpp:340-359 | a sized cube map always has six square faces of the asked width and format, holding the first six images, or null images when fewer are given |
| ResourceManager.CreateCubeMap | bRenderer/implementation/ResourceManager.cpp:116-130 | a cube map is keyed by the given name, with no raw-name step, and an existing one is kept |
| ResourceManager.LoadShaderFile | bRenderer/implementation/ResourceManager.cpp:145-158 | a shader is answered exactly when one is registered under the raw name or the file request is valid; then create semantics hold; otherwise nothing changes |
| ResourceManager.GenerateShader | bRenderer/implementation/ResourceManager.cpp:160-180 | a generated shader is answered exactly when one is registered or the generated one is valid; otherwise nothing changes |
| ResourceManager.MaterialShaderFlags | bRenderer/implementation/ResourceManager.cpp:208-212 | diffuse lighting is on exactly with a diffuse colour or map, specular exactly with lights and a specular exponent, and the cube reflection exactly with six cube faces |
| ResourceManager.MaterialByModelGuard | bRenderer/implementation/ResourceManager.cpp:27-28 | the guard tests the model registry, not the material one; it answers the stored material, keeps every material entry, and stores `Null` under a new name |
| ResourceManager.LoadObjMaterial | bRenderer/implementation/ResourceManager.cpp:22-40 | when a model has the material's name the model guard answers; otherwise the answer is a registered non-null material: an existing one with the textures untouched, or the new one with its texture files loaded; the models are untouched |
| ResourceManager.ObjMaterialShaderName | bRenderer/implementation/ResourceManager.cpp:36 | the shader file name is the given one, or the material's name when none is given, and is empty only when both are |
| ResourceManager.LoadObjMaterialShader | bRenderer/implementation/ResourceManager.cpp:36 | the shaders afterwards are those after loading the shader named after the material, or the given name, with the flags of the material |
| ResourceManager.LoadObjMaterialWithShader | bRenderer/implementation/ResourceManager.cpp:42-51 | when a model has the name the model guard answers; otherwise the material is created as `createMaterial` does, loading its texture files |
| ResourceManager.CreateMaterial | bRenderer/implementation/ResourceManager.cpp:193-201 | a registered material is answered and nothing changes; otherwise the new material is stored and `initialize` loads its texture files; the manager's other fields are kept |
| ResourceManager.ModelGuardAnswersNullMaterial | bRenderer/implementation/ResourceManager.cpp:27-28 | when a model has the material's name, loading the material answers `Null` and leaves a `Null` material entry |
| ResourceManager.MaterialShader | bRenderer/implementation/ResourceManager.cpp:208-217 | making the shader of a material changes only the shader registry |
| ResourceManager.MaterialShaderReadsShaders | bRenderer/implementation/ResourceManager.cpp:208-217 | the shader registry afterwards depends only on the shader registry and shader versions before |
| ResourceManager.CreateMaterialShaderCombination | bRenderer/implementation/ResourceManager.cpp:203-223 | an existing material is answered and nothing changes; otherwise the new material is stored, the shaders are as after making its shader, its texture files are loaded, and nothing else changes |
| AssetManagement.Get | bRenderer/implementation/AssetManagement.cpp:345-350 | lookup answers the stored pointer or `Null` and inserts nothing |
| AssetManagement.Create | bRenderer/implementation/AssetManagement.cpp:177-343 | the creates of properties, models, textures, cameras, matrix stacks, lights and framebuffers answer a stored asset or store the new one, in that kind only; `createShader` in this range is `CreateShader` |
| AssetManagement.CreateMaterial | bRenderer/implementation/AssetManagement.cpp:146-154 | a registered material is answered and nothing changes; otherwise the new material is stored and `initialize` loads its texture files |
| AssetManagement.CreateShader | bRenderer/implementation/AssetManagement.cpp:236-254 | an invalid shader gives `Null` and changes nothing; a valid one follows the create semantics |
| AssetManagement.CreateShaderKeepsExisting | bRenderer/implementation/AssetManagement.cpp:236-254 | a registered shader is answered and never replaced by a later create |
| AssetManagement.Delete | bRenderer/implementation/AssetManagement.cpp:423-466 | delete removes the name from its kind only |
| AssetManagement.DeleteUndoesCreate | bRenderer/implementation/AssetManagement.cpp:423-466 | deleting a name just created from a free slot restores the original bank |
| AssetManagement.Clear | bRenderer/implementation/AssetManagement.cpp:468-484 | clear leaves all nine registries empty and restores the default ambient colour and shader versions |
| AssetManagement.LoadModel | bRenderer/implementation/AssetManagement.cpp:47-94 | a model is keyed by the raw file name and an existing one is kept |
| AssetManagement.LoadTexture | bRenderer/implementation/AssetManagement.cpp:96-107 | a texture is keyed by the raw file name and an existing one is kept |
| AssetManagement.LoadModelTwice | bRenderer/implementation/AssetManagement.cpp:47-94 | loading the same file twice answers the first model and changes nothing more |
| AssetManagement.LoadShaderFile | bRenderer/implementation/AssetManagement.cpp:109-122 | a shader is answered exactly when one is registered under the raw name or the file request is valid; otherwise nothing changes |
| AssetManagement.GenerateShader | bRenderer/implementation/AssetManagement.cpp:124-144 | a generated shader is answered exactly when one is registered or the generated one is valid; otherwise nothing changes |
| AssetManagement.MaterialShaderFlags | bRenderer/implementation/AssetManagement.cpp:163-166 | diffuse lighting is on exactly with a diffuse colour or map, specular exactly with lights and a specular exponent; this class has no cube map flag |
| AssetManagement.MaterialShader | bRenderer/implementation/AssetManagement.cpp:162-171 | making the shader of a material changes only the shader registry |
| AssetManagement.MaterialShaderReadsShaders | bRenderer/implementation/AssetManagement.cpp:162-171 | the shader registry afterwards depends only on the shader registry and shader versions before |
| AssetManagement.CreateMaterialShaderCombination | bRenderer/implementation/AssetManagement.cpp:156-175 | an existing material is answered and nothing changes; otherwise the new material is stored, the shaders are as after making its shader, its texture files are loaded, and nothing else changes |
| AssetManagement.LoadMaterial | bRenderer/implementation/AssetManagement.cpp:25-34 | when a model has the material's name the stored material is answered, every material entry is kept and a new name gets a `Null` entry, and nothing else changes; otherwise, after the shader of the given name or the material's is loaded, the material is created with its texture files loaded |
| AssetManagement.LoadMaterialWithShader | bRenderer/implementation/AssetManagement.cpp:36-45 | the same model guard, with the same answer, kept entries and `Null` entry; otherwise the material is created with the given shader and its texture files loaded |
| BRendererGlobals.CreateInSlot | bRenderer/implementation/bRenderer.cpp:40-57 | the global creates follow the create semantics of the managers |
| BRendererGlobals.CreateShader | bRenderer/implementation/bRenderer.cpp:59-77 | an existing shader is answered whatever the new one's validity; a valid new one is created; an invalid new one answers `Null` and leaves a null entry |
| BRendererGlobals.CreateShaderLeavesSlot | bRenderer/implementation/bRenderer.cpp:59-77 | an invalid shader under a free name answers `Null` yet leaves the name registered |
| BRendererGlobals.LoadFile | bRenderer/implementation/bRenderer.cpp:91-112 | a file asset is keyed by the raw file name, with the create semantics |
| BRendererGlobals.LoadFileAgreesWithManagers | bRenderer/implementation/bRenderer.cpp:91-112 | the global load gives the same answer and registries as the managers' load |
| BRendererGlobals.GetModel | bRenderer/implementation/bRenderer.cpp:139-142 | the getter answers the stored model; an absent name is inserted as `Null`; other kinds are unchanged |
| BRendererGlobals.LoadShaderAsWritten | bRenderer/implementation/bRenderer.cpp:114-127 | wherever the loader as written returns, only the shader registry has changed |
| BRendererGlobals.DefaultFallbackDiverges | bRenderer/implementation/bRenderer.cpp:122 | when the default shader is neither registered nor valid, loading it never returns |
| BRendererGlobals.LoadShader | bRenderer/implementation/bRenderer.cpp:114-127 | the first attempt is answered when it succeeds, else one attempt at the default name; only shaders change |
| BRendererGlobals.LoadShaderReadsShaders | bRenderer/implementation/bRenderer.cpp:114-127 | the answer and resulting shaders depend only on the shader registry before |
| BRendererGlobals.LoadShaderAgrees | bRenderer/implementation/bRenderer.cpp:114-127 | wherever the loader as written returns, the single-fallback loader gives the same result |
| BRendererGlobals.CreateMaterial | bRenderer/implementation/bRenderer.cpp:129-137 | an existing material is answered and nothing changes; otherwise the new material is stored, the shaders are as after loading the material's shader, and nothing else changes |
| BRendererGlobals.CreateMaterialAsWritten | bRenderer/implementation/bRenderer.cpp:129-137 | on the recursive `loadShader`, a registered material is answered whatever happens to the shaders, and whenever the call returns it answers what `CreateMaterial` answers |
| BRendererGlobals.CreateMaterialDiverges | bRenderer/implementation/bRenderer.cpp:114-137 | a new material whose own shader and the default shader are neither registered nor valid is never created: the call does not return |
| Renderer.Reset | bRenderer/implementation/Renderer.cpp:486-504 | reset zeroes the times, restores the defaults and empties the seven registries, keeping the initialized and running flags |
| Renderer.ResetIdempotent | bRenderer/implementation/Renderer.cpp:486-504 | resetting twice is resetting once |
| Renderer.InitRenderer | bRenderer/implementation/Renderer.cpp:66-98 | an initialized renderer answers true and changes nothing; otherwise success is the view's initialization, which then sets the flag |
| Renderer.InitRendererSized | bRenderer/implementation/Renderer.cpp:101-123 | an uninitialized renderer succeeds exactly when both view initializations succeed, and the flag records success |
| Renderer.InitRendererIdempotent | bRenderer/implementation/Renderer.cpp:66-98 | after a successful initialization a second one answers true and changes nothing |
| Renderer.Get | bRenderer/implementation/Renderer.cpp:385-432 | the getters answer the stored asset or `Null` and insert nothing |
| Renderer.Create | bRenderer/implementation/Renderer.cpp:218-336 | the creates of models, textures, cameras, matrix stacks and lights follow the create semantics in their kind and change no other field; `createShader` in this range is `CreateShader` |
| Renderer.CreateMaterial | bRenderer/implementation/Renderer.cpp:208-216 | a registered material is answered and nothing changes; otherwise the new material is stored and `initialize` loads its texture files |
| Renderer.CreateShader | bRenderer/implementation/Renderer.cpp:246-264 | an invalid shader gives `Null` and changes nothing; a valid one follows the create semantics |
| Renderer.LoadFile | bRenderer/implementation/Renderer.cpp:158-185 | `loadTexture` and the `loadModel` overload taking a material key the asset by the raw file name, with the create semantics |
| Renderer.LoadModel | bRenderer/implementation/Renderer.cpp:140-156 | a model registered under the raw file name is answered and nothing changes; otherwise the model is created directly for an empty shader name, and after loading the named shader for any other |
| Renderer.LoadModelAsWritten | bRenderer/implementation/Renderer.cpp:140-156 | on the recursive `loadShader`, the call returns whenever no shader is to be loaded, and whenever it returns it answers what `LoadModel` answers |
| Renderer.Attempt | bRenderer/implementation/Renderer.cpp:187-199 | an attempt answers a shader exactly when one is registered under the raw name or the request is valid; a failed attempt changes nothing |
| Renderer.Requested | bRenderer/implementation/Renderer.cpp:189-190 | the name looked up is the given one, or the default shader name for an empty one, and is empty only when both are |
| Renderer.LoadShaderAsWritten | bRenderer/implementation/Renderer.cpp:187-206 | wherever the loader as written returns, only the registries have changed |
| Renderer.DefaultFallbackDiverges | bRenderer/implementation/Renderer.cpp:201 | when an attempt at the default shader fails, loading the default shader never returns |
| Renderer.EmptyNameDiverges | bRenderer/implementation/Renderer.cpp:189-201 | with no shaders registered and an invalid default, an empty name never returns either |
| Renderer.LoadShader | bRenderer/implementation/Renderer.cpp:187-206 | the first attempt, on the default name for an empty name, is answered when it succeeds, else one attempt at the default; a failure changes nothing |
| Renderer.LoadShaderAgrees | bRenderer/implementation/Renderer.cpp:187-206 | wherever the loader as written returns, the single-fallback loader gives the same result |
| Renderer.LoadMaterial | bRenderer/implementation/Renderer.cpp:125-138 | when a model has the material's name the stored material is answered, every material entry is kept and a new name gets a `Null` entry, and nothing else changes; otherwise, after the shader of the given name or the material's is loaded, the material is created with its texture files loaded |
| Renderer.LoadMaterialAsWritten | bRenderer/implementation/Renderer.cpp:125-138 | on the recursive `loadShader`, the model guard always returns, and whenever the call returns it answers what `LoadMaterial` answers |
| Renderer.LoadMaterialDiverges | bRenderer/implementation/Renderer.cpp:125-138 | a material with no model of its name, whose shader and the default shader are neither registered nor valid, is never loaded: the call does not return |
| Renderer.NumLights | bRenderer/implementation/Renderer.cpp:361-364 | the light count is the smaller of the number of names and the shader's maximum |
| Renderer.LightUniformNames | bRenderer/implementation/Renderer.cpp:367-372 | each of the four uniform names of light `i` starts with `light` and ends with `_` followed by the decimal digits of `i` |
| Renderer.LightUniformNamesDistinct | bRenderer/implementation/Renderer.cpp:367-372 | no uniform name of one light equals a uniform name of another |
| Renderer.DrawGroup | bRenderer/implementation/Renderer.cpp:346-383 | without a shader no uniform is set (the source logs a warning and still draws the group); with one, lights are passed exactly when the first `n` light names are registered and non-null |
| Renderer.AllLightsAreRegistered | bRenderer/implementation/Renderer.cpp:338-344 | when the names are exactly the registered lights, each non-null, the group is drawn with the first `n` of them |
| RendererDesktop.Start | bRenderer/os_specific/desktop/Renderer_desktop.cpp:10-15 | start sets running and moves the initial time so that the time already counted at the stop is kept |
| RendererDesktop.Stop | bRenderer/os_specific/desktop/Renderer_desktop.cpp:30-35 | stop clears running and records the time counted so far |
| RendererDesktop.Draw | bRenderer/os_specific/desktop/Renderer_desktop.cpp:57-79 | a frame's elapsed time is the time since the initial time, and its delta is the growth of the elapsed time |
| RendererDesktop.DrawAll | bRenderer/os_specific/desktop/Renderer_desktop.cpp:57-79 | a run of frames makes one loop call per frame and changes only the elapsed time |
| RendererDesktop.DeltasTelescope | bRenderer/os_specific/desktop/Renderer_desktop.cpp:57-79 | the deltas of a run of frames sum to the time between its first and last frame |
| RendererDesktop.PauseExcluded | bRenderer/os_specific/desktop/Renderer_desktop.cpp:10-35 | after a stop and a start, the elapsed time is the time before the stop plus the time since the start |
| RendererDesktop.Terminate | bRenderer/os_specific/desktop/Renderer_desktop.cpp:37-53 | terminate stops and uninitializes the renderer, zeroes its times and empties every registry |
| RendererDesktop.Run | bRenderer/os_specific/desktop/Renderer_desktop.cpp:10-28 | the loop makes one call per frame and ends not running; a closed window terminates; a stop keeps initialization and records the stop time |
| Logger.GetTag | bRenderer/implementation/Logger.cpp:5-27 | each log mode has a tag of at least four characters containing no colon |
| Logger.TagsDistinct | bRenderer/implementation/Logger.cpp:5-27 | two modes have the same tag exactly when they are the same mode |
| Logger.LogLine | bRenderer/implementation/Logger.cpp:29-32 | a line is the mode's tag, then `: `, then the message |
| Logger.LogLineWith | bRenderer/implementation/Logger.cpp:39-42 | a line with an argument is the tag, then `: `, then the message and the argument |
| Logger.LogLineRoundTrip | bRenderer/implementation/Logger.cpp:29-32 | parsing a logged line gives back its mode and message |
| Logger.LogArg | bRenderer/implementation/Logger.cpp:34-37 | the one-argument overload writes the three-argument line with an empty message, and parsing that line gives back the mode and the argument |
| Logger.LogArgIsLogLine | bRenderer/implementation/Logger.cpp:34-37 | logging an argument alone is logging it as the message |
| DemoInput.SpaceKey | project/implementation/RenderProject.cpp:320-328 | running toggles exactly on a press after a release; after a toggle the cursor is enabled exactly when paused; the key state is remembered |
| DemoInput.SpaceKeysToggleOnRisingEdges | project/implementation/RenderProject.cpp:320-328 | over a run of frames, running flips once per rising edge of the space key |
| DemoInput.ForwardSpeed | project/implementation/RenderProject.cpp:341-348 | forward speed is positive exactly with W, negative exactly with S without W, one step or zero in size, and two steps exactly with shift |
| DemoInput.ForwardSpeedHalved | project/implementation/ProjectMain.cpp:290-383 | the forward speed of the other demo is half that of the render project |
| DemoInput.SidewardSpeed | project/implementation/RenderProject.cpp:350-353 | sideward speed is negative exactly with A, positive exactly with D without A, one step or zero in size |
| DemoInput.Direction | project/implementation/RenderProject.cpp:354-361 | a key pair gives +1 exactly with the first key, -1 exactly with only the second, and 0 with neither |
| DemoInput.KeyControl | project/implementation/RenderProject.cpp:354-361 | keyboard control takes the speeds from the movement keys, the look angles from the mouse, and up and roll from the arrow pairs |
| DemoInput.HalfWidth | project/implementation/RenderProject.cpp:300 | the screen half is the width halved with truncation toward zero, for either sign |
| DemoInput.TouchStep | project/implementation/RenderProject.cpp:299-310 | a touch starting left of the middle sets the movement from its drag; one on the right sets the look angles; up and roll are kept |
| DemoInput.RightTouchesKeepMovement | project/implementation/RenderProject.cpp:299-310 | right-half touches never change the movement |
| DemoInput.LastLeftTouchMoves | project/implementation/RenderProject.cpp:299-310 | the movement comes from the last left-half touch |
| DemoInput.ProcessTouches | project/implementation/RenderProject.cpp:294-313 | only the first three touches are looked at, against the half width |
| DemoInput.UpdateCamera | project/implementation/RenderProject.cpp:274-371 | a control is produced exactly while running; a double tap toggles running on touch screens; the space key toggles it on the desktop, with mouse look |
| DemoInput.EscapeCheck | project/implementation/RenderProject.cpp:175-176 | escape stops, uninitializes and resets the renderer; otherwise nothing changes |
| Properties.GetMatrix4x4 | bRenderer/headers/Properties.h:32 | a read answers the stored matrix; an absent name answers the given default and stores it; the other maps are unchanged |
| Properties.GetMatrix3x3 | bRenderer/headers/Properties.h:41 | the same for 3x3 matrices |
| Properties.GetVector4 | bRenderer/headers/Properties.h:50 | the same for four-vectors |
| Properties.GetVector3 | bRenderer/headers/Properties.h:59 | the same for three-vectors |
| Properties.GetScalar | bRenderer/headers/Properties.h:68 | a read answers the stored scalar, or 0.0 inserted for an absent name |
| Properties.SetMatrix4x4 | bRenderer/headers/Properties.h:79 | the name then holds the matrix, the other matrices of that size are kept, and the other maps are unchanged |
| Properties.SetMatrix3x3 | bRenderer/headers/Properties.h:90 | the name then holds the matrix, the other matrices of that size are kept, and the other maps are unchanged |
| Properties.SetVector4 | bRenderer/headers/Properties.h:101 | the name then holds the vector, the other vectors of that size are kept, and the other maps are unchanged |
| Properties.SetVector3 | bRenderer/headers/Properties.h:112 | the name then holds the vector, the other vectors of that size are kept, and the other maps are unchanged |
| Properties.SetScalar | bRenderer/headers/Properties.h:123 | the name then holds the scalar, the other scalars are kept, and the other maps are unchanged |
| Properties.SetMatrices4x4 | bRenderer/headers/Properties.h:73 | the whole 4x4 map is replaced and the others are kept |
| Properties.SetMatrices3x3 | bRenderer/headers/Properties.h:84 | the whole 3x3 map is replaced and the others are kept |
| Properties.SetVectors4 | bRenderer/headers/Properties.h:95 | the whole four-vector map is replaced and the others are kept |
| Properties.SetVectors3 | bRenderer/headers/Properties.h:106 | the whole three-vector map is replaced and the others are kept |
| Properties.SetScalars | bRenderer/headers/Properties.h:117 | the whole scalar map is replaced and the others are kept |
| Properties.ScalarRoundTrip | bRenderer/headers/Properties.h:117-123 | a scalar read after a write of the same name answers the written value; other names read as before |
| Properties.SetMatrixSelectsMap | bRenderer/headers/Properties.h:79-90 | writing a 4x4 matrix does not change what the 3x3 and scalar reads of that name answer |
| Material.GetTexture | bRenderer/headers/Material.h:43 | a read answers the stored texture, or `Null` inserted for an absent name |
| Material.SetTexture | bRenderer/headers/Material.h:72 | the name then holds the texture, the other textures are kept, and the other fields are unchanged |
| Material.GetVector | bRenderer/headers/Material.h:52 | a read answers the stored vector, inserting the default when absent |
| Material.SetVector | bRenderer/headers/Material.h:83 | the name then holds the vector, the other vectors are kept, and the other fields are unchanged |
| Material.GetScalar | bRenderer/headers/Material.h:61 | a read answers the stored scalar, inserting 0.0 when absent |
| Material.SetScalar | bRenderer/headers/Material.h:94 | the name then holds the scalar, the other scalars are kept, and the other fields are unchanged |
| Material.SetTextures | bRenderer/headers/Material.h:66 | the texture map is replaced and the rest kept |
| Material.SetVectors | bRenderer/headers/Material.h:77 | the vector map is replaced and the rest kept |
| Material.SetScalars | bRenderer/headers/Material.h:88 | the scalar map is replaced and the rest kept |
| Material.SetShader | bRenderer/headers/Material.h:103 | only the shader changes |
| Material.SetName | bRenderer/headers/Material.h:112 | only the name changes |
| Material.TextureRoundTrip | bRenderer/headers/Material.h:43-72 | a texture read after a write answers the written texture, other names read as before, and a second read of an absent texture changes nothing |
| Material.ShaderAndNameRoundTrip | bRenderer/headers/Material.h:98-112 | the getters answer what the setters stored, and setting what a getter answers changes nothing |
| MatrixStack.Identity | bRenderer/implementation/MatrixStack.cpp:15 | the identity has 1 on the diagonal and 0 elsewhere |
| MatrixStack.Transpose | bRenderer/implementation/MatrixStack.cpp:42 | the transpose swaps every pair of indices |
| MatrixStack.Mul | bRenderer/implementation/MatrixStack.cpp:66 | each product entry is the dot product of a row and a column |
| MatrixStack.TransposeInvolutive | bRenderer/implementation/MatrixStack.cpp:42 | transposing twice gives the matrix back |
| MatrixStack.TranslationNormal | bRenderer/implementation/MatrixStack.cpp:14-19 | the normal factor of a translation is the identity with the translation column negated |
| MatrixStack.ScalingNormal | bRenderer/implementation/MatrixStack.cpp:25-31 | the normal factor of a scaling inverts each non-zero diagonal factor and keeps 1 for a zero one |
| MatrixStack.TranslationNormalInverts | bRenderer/implementation/MatrixStack.cpp:14-19 | a pure translation times its normal factor is the identity |
| MatrixStack.ScalingNormalInverts | bRenderer/implementation/MatrixStack.cpp:25-31 | a scaling with no zero factor times its normal factor is the identity |
| MatrixStack.TransposeProduct | bRenderer/implementation/MatrixStack.cpp:72-85 | the transpose of a product is the product of the transposed factors in reverse order |
| MatrixStack.TransposeProductInvolutive | bRenderer/implementation/MatrixStack.cpp:72-85 | transposing every factor twice gives the product back |
| MatrixStack.TransposeProductReverses | bRenderer/implementation/MatrixStack.cpp:72-85 | the factor-wise transpose of a product reversed is the reversal of the factor-wise transpose |
| MatrixStack.PushTranslation | bRenderer/implementation/MatrixStack.cpp:10-20 | the model stack gains the matrix on top and keeps the rest; for a pure translation the normal entry pushed is its inverse |
| MatrixStack.PushScaling | bRenderer/implementation/MatrixStack.cpp:21-34 | the model stack gains the matrix on top and keeps the rest; for a scaling with no zero factor the normal entry pushed is its inverse |
| MatrixStack.PushRotation | bRenderer/implementation/MatrixStack.cpp:36-44 | the model stack gains the matrix on top and keeps the rest; the normal entry pushed is its transpose |
| MatrixStack.Pop | bRenderer/implementation/MatrixStack.cpp:46-50 | pop removes one entry from each stack and keeps them paired |
| MatrixStack.Clear | bRenderer/implementation/MatrixStack.cpp:52-56 | clear empties both stacks |
| MatrixStack.PushPopRoundTrip | bRenderer/implementation/MatrixStack.cpp:10-50 | each push keeps the stacks paired, and a pop after a push restores the stack |
| MatrixStack.GetModelMatrix | bRenderer/implementation/MatrixStack.cpp:59-70 | the model matrix is the product of the pushed matrices, the last pushed leftmost |
| MatrixStack.GetNormalMatrix | bRenderer/implementation/MatrixStack.cpp:72-85 | the normal matrix is the transpose of the product of the model matrices in push order; the normal stack is not read |
| MatrixStack.ModelMatrixOrder | bRenderer/implementation/MatrixStack.cpp:59-70 | an empty stack gives the identity, and each push multiplies its matrix on the left of the model matrix |
| MatrixStack.NormalMatrixOfModel | bRenderer/implementation/MatrixStack.cpp:72-85 | the normal matrix is the factor-wise transpose of the model matrix's factors, in reverse |
| MatrixStack.NormalMatrixOfPush | bRenderer/implementation/MatrixStack.cpp:72-85 | a push multiplies the normal matrix on the left by the transposed entry, while the model matrix gains the entry itself on the left |
| RenderQueue.LessTotal | bRenderer/implementation/RenderQueue.cpp:15 | any two different keys are ordered one way or the other |
| RenderQueue.LessAsymmetric | bRenderer/implementation/RenderQueue.cpp:15 | no key is before a key that is before it |
| RenderQueue.InsertOpaque | bRenderer/implementation/RenderQueue.cpp:15 | the opaque calls gain exactly the new call, as multisets |
| RenderQueue.InsertOpaqueSorted | bRenderer/implementation/RenderQueue.cpp:15 | inserting keeps the opaque calls sorted by key |
| RenderQueue.InsertOpaquePosition | bRenderer/implementation/RenderQueue.cpp:15 | the new call goes in after every call whose key is not greater, so after the calls with an equal key, and before the first greater key |
| RenderQueue.InsertTransparent | bRenderer/implementation/RenderQueue.cpp:10 | the transparent calls gain exactly the new call, as multisets |
| RenderQueue.InsertTransparentSorted | bRenderer/implementation/RenderQueue.cpp:10 | inserting keeps the transparent calls sorted by distance |
| RenderQueue.InsertTransparentPosition | bRenderer/implementation/RenderQueue.cpp:10 | the new call goes in after every call at a distance not greater, so after the calls at an equal distance, and before the first farther one |
| RenderQueue.OpaqueKey | bRenderer/implementation/RenderQueue.cpp:14 | the opaque key is the program number in decimal, then the material name, then the geometry name |
| RenderQueue.Submit | bRenderer/implementation/RenderQueue.cpp:6-17 | a transparent call goes to the transparent calls only, and an opaque one to the opaque calls only, keyed by `OpaqueKey` with blend factors 0 |
| RenderQueue.SubmitSorted | bRenderer/implementation/RenderQueue.cpp:6-17 | submitting keeps both sides sorted |
| RenderQueue.TransparentStepsOrder | bRenderer/implementation/RenderQueue.cpp:27-30 | transparent calls are drawn from the farthest to the nearest, each with its own blend function |
| RenderQueue.Draw | bRenderer/implementation/RenderQueue.cpp:19-37 | opaque calls are drawn in stored order, then transparent calls from last to first, each after its blend function, then the default blend is set and the queue is cleared |
| RenderQueue.Clear | bRenderer/implementation/RenderQueue.cpp:39-46 | clear empties both sides |
| RenderQueue.SubmitAllEntries | bRenderer/implementation/RenderQueue.cpp:6-17 | after a run of submits each side holds exactly its submitted calls, as multisets |
| RenderQueue.SubmitAllSorted | bRenderer/implementation/RenderQueue.cpp:6-17 | a run of submits from an empty queue leaves both sides sorted |
| RenderQueue.DrawOrder | bRenderer/implementation/RenderQueue.cpp:19-37 | in a sorted queue opaque calls are drawn in non-decreasing key order and transparent calls in non-increasing distance |
| Geometry.Widen | bRenderer/implementation/Geometry.cpp:84-97 | one scan step gives a range holding the new value and the old range, each end being the old end or the new value |
| Geometry.CreateBoundingBox | bRenderer/implementation/Geometry.cpp:76-100 | the box holds every vertex position, and each of its six bounds is a coordinate of some vertex |
| Geometry.CopyVertexData | bRenderer/implementation/Geometry.cpp:50-57 | a non-empty vertex list is copied with its count; an empty one leaves the geometry as it was |
| Geometry.CopyIndexData | bRenderer/implementation/Geometry.cpp:59-66 | a non-empty index list is copied with its count; an empty one leaves the geometry as it was |
| Geometry.BoundingBoxTight | bRenderer/implementation/Geometry.cpp:76-100 | the bounding box is the smallest box holding all positions |
| ModelData.CreateGroup | bRenderer/implementation/ModelData.cpp:72-81 | the named group becomes current; an existing group is kept as it was, a new name gets an empty group; other groups are unchanged |
| ModelData.CreateGroupIdempotent | bRenderer/implementation/ModelData.cpp:72-81 | creating a group twice is creating it once |
| ModelData.MakeVertexAttributes | bRenderer/implementation/ModelData.cpp:204-269 | the vertex copies the referenced position and texture coordinate, with z and t flipped as asked, reads the normal at the position index, zeroes the position, coordinate or normal it does not read, and without a normal zeroes the tangent and bitangent as well |
| ModelData.GenVertex | bRenderer/implementation/ModelData.cpp:204-273 | a vertex is emitted exactly when its indices are readable; the vertex buffer then gains it and the index buffer its 16-bit number |
| ModelData.GenVertexKeepsVbo | bRenderer/implementation/ModelData.cpp:204-273 | emitting a vertex keeps the index buffer numbering the vertex buffer |
| ModelData.VboIndicesCount | bRenderer/implementation/ModelData.cpp:272 | in a consistent buffer of at most 65536 vertices, index `k` is `k` |
| ModelData.ZeroBased | bRenderer/implementation/ModelData.cpp:290-292 | one-based OBJ indices in range become zero-based, and the result fits 16 bits |
| ModelData.CornerIndex | bRenderer/implementation/ModelData.cpp:290-292 | a corner gives its zero-based vertex index, and its texture and normal indices when the face form has them, else 0 |
| ModelData.TriangleFace | bRenderer/implementation/ModelData.cpp:287-365 | a triangle succeeds exactly when its three corners are readable; the group then gains their indices, vertices and numbers, the face is recorded when the form asks, and nothing else changes |
| ModelData.TriangleFaceKeepsVbo | bRenderer/implementation/ModelData.cpp:287-365 | a triangle keeps every group's index buffer numbering its vertices, and keeps the group names |
| ModelData.NormalOnlyFaceAsWrittenFails | bRenderer/implementation/ModelData.cpp:340-342 | as written, a position-and-normal face fails on a model with normals and no texture coordinates |
| ModelData.NormalOnlyFaceSucceeds | bRenderer/implementation/ModelData.cpp:326-343 | read without texture coordinates, the same face emits its three vertices with their normals and zero texture coordinates |
| ModelData.NormalOnlyFaceIgnoresTexCoords | bRenderer/implementation/ModelData.cpp:326-343 | the corrected position-and-normal face succeeds and builds the same group whatever the texture coordinates |
| ModelData.NormalOnlyListsRead | bRenderer/implementation/ModelData.cpp:173-203 | the six list lines of the normal-only file leave the lists its face reads, whatever the face form |
| ModelData.NormalOnlyLoadAsWrittenFails | bRenderer/implementation/ModelData.cpp:340-342 | as written, loading the whole normal-only file fails at its face |
| ModelData.NormalOnlyLoadSucceeds | bRenderer/implementation/ModelData.cpp:326-343 | with the corrected face form the whole normal-only file loads |
| ModelData.PlainFacePostPassOutOfRange | bRenderer/implementation/ModelData.cpp:287-303 | a file of three `v` lines and `f 1 2 3` is accepted by the callbacks and records one face, so the post-pass runs and reads `_texCoords` at vertex indices the empty texture-coordinate list does not have (ModelData.cpp:498, 634-636) |
| ModelData.MtlStep | bRenderer/implementation/ModelData.cpp:533-609 | `newmtl` selects a name; a vector, scalar or texture keyword writes that slot of the selected material; other lines change nothing |
| ModelData.MtlRunKeepsMaterials | bRenderer/implementation/ModelData.cpp:533-609 | an MTL file never removes a material |
| ModelData.MtlRunUnselectedUnchanged | bRenderer/implementation/ModelData.cpp:533-609 | a material that is not selected and not named by a `newmtl` line keeps its data |
| ModelData.UseMaterial | bRenderer/implementation/ModelData.cpp:444-451 | `usemtl` registers the material under its name and makes it the current group's material; other materials and the rest of the group are kept |
| ModelData.Step | bRenderer/implementation/ModelData.cpp:173-456 | vertex, texture and normal statements append to their lists; polygon, object-name and message callbacks change nothing; a current group stays defined; the `v//vn` face uses the given form, the source's or the corrected one |
| ModelData.StepKeepsGroups | bRenderer/implementation/ModelData.cpp:173-456 | no callback removes a group or breaks the numbering of an index buffer |
| ModelData.FaceStepKeepsGroups | bRenderer/implementation/ModelData.cpp:287-365 | a face keeps every group and the numbering of every index buffer |
| ModelData.OtherStepKeepsGroups | bRenderer/implementation/ModelData.cpp:173-203 | the callbacks other than faces keep every group and the numbering of every index buffer |
| ModelData.CreateGroupKeepsVbo | bRenderer/implementation/ModelData.cpp:72-81 | creating a group keeps the numbering of every index buffer |
| ModelData.UseMaterialKeepsVbo | bRenderer/implementation/ModelData.cpp:444-451 | `usemtl` keeps every group and the numbering of every index buffer |
| ModelData.RunKeepsGroups | bRenderer/implementation/ModelData.cpp:173-456 | a whole OBJ file keeps every group it started with and the numbering of every index buffer |
| ModelData.LoadHasDefaultGroup | bRenderer/implementation/ModelData.cpp:458-460 | a loaded model always has the `default` group, and every index buffer numbers its vertices |
| ShaderSource.Head | bRenderer/implementation/ShaderSource.cpp:10-11 | the head starts with the platform's version line; on the desktop it is that line alone, on ES the precision line follows |
| ShaderSource.LightProperties | bRenderer/implementation/ShaderSource.cpp:16-36 | the declarations are the light blocks of lights `0 .. maxLights - 1` in order, empty without lights, with no braces |
| ShaderSource.LightBlockVectorSpace | bRenderer/implementation/ShaderSource.cpp:16-36 | a light declares its tangent-space vector exactly with a normal map and its view-space vector exactly without |
| ShaderSource.LightBlocksOpens | bRenderer/implementation/ShaderSource.cpp:16-36 | the light declarations open no brace |
| ShaderSource.LightBlocksCloses | bRenderer/implementation/ShaderSource.cpp:16-36 | the light declarations close no brace |
| ShaderSource.VertexMainBegin | bRenderer/implementation/ShaderSource.cpp:82-93 | `main` begins with `void main() {`, assigns texture coordinates exactly with textures and the normal exactly with lighting and no normal map |
| ShaderSource.VertexMainBeginBraces | bRenderer/implementation/ShaderSource.cpp:82-93 | the beginning of `main` leaves one brace open for its end |
| ShaderSource.Closers | bRenderer/implementation/ShaderSource.cpp:199-201 | the closing loop closes one brace per light and opens none |
| ShaderSource.LightVector | bRenderer/implementation/ShaderSource.cpp:108-131 | the light vectors are one block per light in order, and the code is brace-balanced |
| ShaderSource.LightVectorBalanced | bRenderer/implementation/ShaderSource.cpp:108-131 | the light-vector blocks followed by the closers of the guards open as many braces as they close |
| ShaderSource.LightVectorBlockGuard | bRenderer/implementation/ShaderSource.cpp:114-115 | with a variable light count each block starts with the guard for its one-based light number |
| ShaderSource.LightingBlockDiffuse | bRenderer/implementation/ShaderSource.cpp:175-198 | a light accumulates diffuse light exactly with diffuse lighting |
| ShaderSource.LightingBlockSpecular | bRenderer/implementation/ShaderSource.cpp:175-198 | a light accumulates specular light exactly with specular lighting |
| ShaderSource.Lighting | bRenderer/implementation/ShaderSource.cpp:175-204 | the lighting code is one block per light and balanced; with lights it accumulates diffuse and specular light exactly as asked |
| ShaderSource.LightingBalanced | bRenderer/implementation/ShaderSource.cpp:175-204 | the lighting blocks with their closers open as many braces as they close |
| ShaderSource.LightingPresence | bRenderer/implementation/ShaderSource.cpp:175-204 | with at least one light the lighting code holds the diffuse and specular accumulations exactly as asked |
| ShaderSource.Present | bRenderer/implementation/ShaderSource.cpp:210-229 | the kept items are no more than the candidates and are among them |
| ShaderSource.FinalizeDiffuse | bRenderer/implementation/ShaderSource.cpp:210-218 | the diffuse term is multiplied by the colour, then by the map, each exactly when asked |
| ShaderSource.FinalizeSpecular | bRenderer/implementation/ShaderSource.cpp:221-229 | the specular term is multiplied by the colour, then by the map, each exactly when asked |
| ShaderSource.BlocksOpens | bRenderer/implementation/ShaderSource.cpp:108-131 | blocks that each open the same number of braces open that many times their count |
| ShaderSource.BlocksCloses | bRenderer/implementation/ShaderSource.cpp:108-131 | blocks that each close the same number of braces close that many times their count |
| ShaderText.RenderAppend | bRenderer/implementation/ShaderSource.cpp:108-131 | the text of joined token runs is the joined text, as the builders' `+=` appends |
| ShaderText.MainOpenText | bRenderer/implementation/ShaderSource.cpp:141 | the opening of `main` spells `void main() {` and a line break |
| ShaderText.VertexMainBeginText | bRenderer/implementation/ShaderSource.cpp:82-93 | every vertex `main` text begins with `void main() {` and a line break, whatever the flags |
| ShaderText.NumberedLineText | bRenderer/implementation/ShaderSource.cpp:20-34 | a numbered statement spells its fragment, the light number in decimal, then `;` and a line break |
| ShaderData.Default | bRenderer/implementation/ShaderData.cpp:7-9 | default shader data is not valid |
| ShaderData.Declarations | bRenderer/implementation/ShaderData.cpp:54-55 | the declarations are those of lights `0 .. count - 1`, in order |
| ShaderData.InitializeSourceCommonVariables | bRenderer/implementation/ShaderData.cpp:42-61 | both sources become the same common part: head, light count, light declarations and varyings |
| ShaderData.CreateVertShader | bRenderer/implementation/ShaderData.cpp:63-84 | the vertex source keeps what it had and gains the vertex part for the normal-map choice |
| ShaderData.AppendDiffuse | bRenderer/implementation/ShaderData.cpp:104-119 | the fragment source keeps what it had and gains the diffuse part |
| ShaderData.CreateFragShader | bRenderer/implementation/ShaderData.cpp:86-147 | the fragment source keeps what it had and gains the fragment part |
| ShaderData.AppendColorTerms | bRenderer/implementation/ShaderData.cpp:130-145 | the fragment source keeps what it had and gains the colour terms |
| ShaderData.Create | bRenderer/implementation/ShaderData.cpp:16-40 | create stores every flag, makes the data valid, and gives both sources the common prefix with the vertex part on the vertex side |
| ShaderData.CommonPrefix | bRenderer/implementation/ShaderData.cpp:42-61 | generated sources share a prefix that starts with the head and declares exactly the lights `0 .. maxLights - 1` |
| ShaderData.CommonSourceDeclares | bRenderer/implementation/ShaderData.cpp:52-55 | the common part declares a light exactly when its number is below the maximum and its normal-map flag matches |
| ShaderData.LightingLinesMember | bRenderer/implementation/ShaderData.cpp:112-113 | the lighting lines are exactly the lighting of each light below the count |
| ShaderData.FragmentNormalChoice | bRenderer/implementation/ShaderData.cpp:99-102 | the fragment main takes the normal-map snippet exactly with a normal map, and the surface normal otherwise |
| ShaderData.ColorTermsOnly | bRenderer/implementation/ShaderData.cpp:130-145 | the colour sum holds nothing but colour terms |
| ShaderData.FragmentDiffuseChoice | bRenderer/implementation/ShaderData.cpp:104-119 | the lit initialiser appears exactly with a diffuse colour and lights, the unlit one exactly with a diffuse colour and no lights, and the map finaliser exactly with a diffuse colour and map |
| ShaderData.FragmentLightingBlocks | bRenderer/implementation/ShaderData.cpp:112-113 | the fragment shader lights with a light exactly when there is a diffuse colour and the light is below the maximum |
| ShaderData.ColorSumIsJoin | bRenderer/implementation/ShaderData.cpp:130-145 | the sum in `gl_FragColor` joins the present terms among ambient, diffuse and specular with `+`, in that order, none dangling and none missing |

## Left out

- OpenGL, GLFW and iOS calls are not modelled: buffer uploads, uniform
  uploads, texture binding, window and view handling, and the
  render-loop callbacks into the project. Draw calls are recorded as steps.
- File I/O is not modelled. The contents of a file, whether it exists,
  and whether a shader compiles are inputs of the operations.
- The OBJ tokeniser is not modelled. A file is a sequence of the callback
  events it produces.
- The polygon callbacks (`ModelData.cpp:367-425`) are modelled as doing
  nothing, because only triangles reach the buffers.
- The normal post-pass (`ModelData.cpp:497-528`) is not applied by
  `ModelData.Load`. That pass runs whenever an `f v` or `f v/vt` face was
  recorded (`genFace`, ModelData.cpp:302, 323). `Load` omits two of its
  effects. First, `createFaceNormals` reads `_texCoords` at each face's
  vertex indices (ModelData.cpp:634-636), which is out of range when the
  file has fewer `vt` lines than vertices; `Load` still answers `Some`,
  and `ModelData.PlainFacePostPassOutOfRange` exhibits such a file.
  Second, the pass overwrites the normal, tangent and bitangent of every
  buffered vertex in every group (ModelData.cpp:503-526) with
  floating-point averages that are not modelled.
- Camera motion is not modelled, nor the scaling of speeds by
  `deltaTime` and the camera speed. The demo's speeds and look angles are
  the control values the input handling chooses.
- Key codes are not modelled: `Input.h` is not part of this model. A key
  is a `KeyState` of down or up.
- Floating point is modelled as `real` in vectors, matrices, scalars and
  material data. Rounding and NaN are not modelled. The renderer's clock
  is the exception: see the `RendererDesktop.` line below.
- RendererDesktop.DeltasTelescope, RendererDesktop.PauseExcluded: the
  times `_elapsedTime`, `_stopTime` and `_initialTime` are `double`
  (Renderer.h:475) fed by `glfwGetTime()`, but `RendererDesktop` and
  `Renderer.State` hold them as integer ticks. The exact sums these lemmas
  state hold for the ticks; for doubles they hold only up to rounding.
- ModelData.MaterialData: MaterialData.h declares only `textures`,
  `vectors`, `scalars` and `name`. ResourceManager.cpp:36 and :214 read a
  `cubeTextures` map that no header of this model declares. It is kept as
  a separate field that the MTL reader never fills.
- `std::string` ordering is modelled as the lexicographic order on characters.
- The build switch between `OS_DESKTOP` and `OS_IOS` is a `desktop` flag.
- `bRenderer::DEFAULT_SHADER_NAME`, which `Renderer.cpp:495` stores in
  `_defaultShaderName`, is not defined in any file of this model. It is
  taken as `"default"`, the literal `bRenderer.cpp:17` uses for the
  default material. `loadShader` falls back to `_defaultShaderName`.
- `ShaderData.cpp` uses snippet constants that `ShaderSource.cpp` does not
  define. Those snippets are symbolic `Snippet` values, and only the colour
  sum is spelled out as characters.
- Textures, fonts, text sprites, cameras, lights, framebuffers and depth
  maps are opaque assets. Only their registry behaviour is modelled.
- Renderer.LoadShaderAsWritten: the recursion is bounded by a fuel
  parameter, because the source recursion need not terminate.
- BRendererGlobals.LoadShaderAsWritten: bounded by fuel for the same reason.
- MatrixStack.Pop: requires a non-empty stack, because `pop_back` on an
  empty vector is undefined behaviour.
- Geometry.CreateBoundingBox: requires a non-empty vertex list, because
  the source reads `arg[0]`.
- ShaderSource.Present: states only that the kept items are among the
  candidates and no more numerous. The exact order is stated through
  `FinalizeDiffuse` and `FinalizeSpecular`.
- RendererDesktop.Draw: does not model the frame callbacks into the
  project. Only the clock bookkeeping is modelled.
- `Logger` output streams are not modelled. A log call is the line it
  would write.
- ModelData.MakeVertex: writes a zero tangent and bitangent when a normal
  is read. The source leaves those two fields uninitialized there
  (`ModelData.cpp:248-254` is commented out), so their value is
  indeterminate; `MakeVertexAttributes` states nothing about them in
  that case.
- ResourceManager.Create: the `Model` and `Sprite` constructors that
  `createModel` and `createSprite` call go back into the manager. They
  create the materials of the model's groups (`Model.cpp:6-36`), or the
  sprite's material with its texture and shader (`Sprite.cpp:13-38`); the
  text-sprite constructor is not part of this model. Those nested calls
  are not modelled, so the contract's "in that registry only" holds only
  for the kinds whose constructors make no such call.
- ResourceManager.LoadObjModel: ends in `createModel`, so the same nested
  material creates are not modelled.
- AssetManagement.Create: the same for `createModel`
  (`AssetManagement.cpp:186-211`).
- AssetManagement.LoadModel: ends in `createModel`, with the same gap.
- Renderer.Create: the same for `createModel` (`Renderer.cpp:218-225`).
- Renderer.LoadFile: the `loadModel` overload it models ends in
  `createModel`, with the same gap.
- Renderer.LoadModel: ends in `createModel`, with the same gap.
- BRendererGlobals.CreateMaterial: is built on the single-fallback
  `LoadShader`, so it answers where the source's recursive `loadShader`
  never returns (own and default shader both unavailable). The source's
  behaviour is `CreateMaterialAsWritten`, which agrees whenever it returns,
  and `CreateMaterialDiverges` states the case where it does not.
- Renderer.LoadMaterial: built on the single-fallback `LoadShader` for the
  same reason; `LoadMaterialAsWritten` and `LoadMaterialDiverges` state
  the source's behaviour.
- BRendererGlobals.CreateMaterial: `bRenderer.cpp:135` calls a two-argument
  `initialize(materialData, shader)` that neither `Material.h:30` nor
  `Material.cpp:4` declares, so which registry its texture loads would
  reach is unknown. Texture loads are not modelled here, and the contract
  keeps the global texture registry unchanged.
- Texture loads: the texture a load constructs is a function of the raw
  name (`texMade`). When two files of one material share a raw name, the
  source constructs the texture from whichever file the map visits first;
  the model does not distinguish the two.
- ResourceManager.CreateMaterialShaderCombination and
  AssetManagement.CreateMaterialShaderCombination: the `Null` entry that
  `_materials[name]` inserts before the shader step is not modelled as a
  separate step. It is overwritten by the new material, and the shader
  step does not read the material registry.

## Findings

| source | as written | input that shows it | evidently intended | confidence | as-written member | corrected member |
|---|---|---|---|---|---|---|
| bRenderer/implementation/ModelData.cpp:340-342 | the `v//vn` face branch calls `genVertex<true,true,true>`, which also reads a texture coordinate | an OBJ file with `v` and `vn` lines, no `vt` line, and the face `f 1//1 2//2 3//3` | read position and normal only, as the `v//vn` form has no texture index | not executed | ModelData.NormalOnlyLoadAsWrittenFails | ModelData.NormalOnlyLoadSucceeds |
| bRenderer/implementation/Renderer.cpp:201 | a failed load calls `loadShader(_defaultShaderName)` again, with no guard | the default shader's file is missing or invalid, and any other failing shader is loaded | fall back to the default shader once, then answer `Null` | not executed | Renderer.DefaultFallbackDiverges | Renderer.LoadShader |
| bRenderer/implementation/bRenderer.cpp:122 | the global loader has the same unguarded fallback | an invalid default shader and any failing shader name | fall back once, then answer `Null` | not executed | BRendererGlobals.DefaultFallbackDiverges | BRendererGlobals.LoadShader |
