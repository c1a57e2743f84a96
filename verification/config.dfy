/** The library's configuration constants (Configuration.cpp) that the
    modelled components read: default colours and shader versions, the
    default light count, and the Wavefront keywords and uniform names the
    resource managers test for. */
module Config {
  import opened Common

  /** `DEFAULT_AMBIENT_COLOR` */
  const DefaultAmbientColor: Vec3 := Zero3
  /** `DEFAULT_SHADER_VERSION_DESKTOP` */
  const DefaultShaderVersionDesktop: string := "#version 120"
  /** `DEFAULT_SHADER_VERSION_ES` */
  const DefaultShaderVersionES: string := "#version 100"
  /** `DEFAULT_SHADER_MAX_LIGHTS` */
  const DefaultShaderMaxLights: nat := 3
  /** `DEFAULT_GROUP_NAME`, the group the OBJ loader starts in. */
  const DefaultGroupName: string := "default"
  /** The default shader name of the renderer. Its definition is not part of
      this model; the free functions of bRenderer.cpp use this literal. */
  const DefaultShaderName: string := "default"

  /** `WAVEFRONT_MATERIAL_DIFFUSE_COLOR` */
  const DiffuseColorKey: string := "Kd"
  /** `WAVEFRONT_MATERIAL_SPECULAR_EXPONENT` */
  const SpecularExponentKey: string := "Ns"
  /** `DEFAULT_SHADER_UNIFORM_DIFFUSE_MAP` */
  const DiffuseMapUniform: string := "DiffuseMap"
  /** `DEFAULT_SHADER_UNIFORM_SPECULAR_MAP` */
  const SpecularMapUniform: string := "SpecularMap"
  /** `DEFAULT_SHADER_UNIFORM_NORMAL_MAP` */
  const NormalMapUniform: string := "NormalMap"

  /** `WAVEFRONT_MATERIAL_SPECULAR_COLOR` */
  const SpecularColorKey: string := "Ks"
  /** `DEFAULT_SHADER_UNIFORM_NUMBER_OF_LIGHTS` */
  const NumberOfLightsUniform: string := "numLights"
  /** `DEFAULT_SHADER_UNIFORM_LIGHT_POSITION_VIEW_SPACE` */
  const LightPositionUniform: string := "lightPositionViewSpace_"
  /** `DEFAULT_SHADER_UNIFORM_DIFFUSE_LIGHT_COLOR` */
  const DiffuseLightColorUniform: string := "lightDiffuseColor_"
  /** `DEFAULT_SHADER_UNIFORM_SPECULAR_LIGHT_COLOR` */
  const SpecularLightColorUniform: string := "lightSpecularColor_"
  /** `DEFAULT_SHADER_UNIFORM_LIGHT_INTENSITY` */
  const LightIntensityUniform: string := "lightIntensity_"
  /** `DEFAULT_SHADER_UNIFORM_LIGHT_ATTENUATION` */
  const LightAttenuationUniform: string := "lightAttenuation_"
  /** `DEFAULT_SHADER_UNIFORM_LIGHT_RADIUS` */
  const LightRadiusUniform: string := "lightRadius_"
  /** `DEFAULT_SHADER_UNIFORM_MODEL_VIEW_MATRIX` */
  const ModelViewMatrixUniform: string := "ModelViewMatrix"
  /** `DEFAULT_SHADER_ATTRIBUTE_POSITION` */
  const PositionAttribute: string := "Position"
  /** `DEFAULT_SHADER_ATTRIBUTE_NORMAL` */
  const NormalAttribute: string := "Normal"
  /** `DEFAULT_SHADER_ATTRIBUTE_TEXCOORD` */
  const TexCoordAttribute: string := "TexCoord"
}
