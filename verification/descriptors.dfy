/**
  Resource descriptor value types of the GPU object model: plain records, one per
  kind of device memory a generated kernel can bind (2D/3D images, 2D image arrays,
  image buffers, linear buffers and opaque custom memories).
 */
module Descriptors {

  /** The C++ `int` used for a buffer's element size. */
  newtype int32 = x: int | -0x8000_0000 <= x < 0x8000_0000

  /** Element data type. Its enumeration lives outside this model, so a value is
      identified only by an ordinal. */
  datatype DataType = DataType(code: nat)

  /** Access mode of a resource or of an object descriptor. Its enumeration also lives
      outside this model, so a value is identified only by an ordinal. */
  datatype AccessType = AccessType(code: nat)

  /** Address space a buffer lives in. */
  datatype MemoryType = Global | Constant | Local

  datatype GPUImage2DDescriptor = GPUImage2DDescriptor(dataType: DataType, accessType: AccessType)

  datatype GPUImage3DDescriptor = GPUImage3DDescriptor(dataType: DataType, accessType: AccessType)

  datatype GPUImage2DArrayDescriptor = GPUImage2DArrayDescriptor(dataType: DataType, accessType: AccessType)

  datatype GPUImageBufferDescriptor = GPUImageBufferDescriptor(dataType: DataType, accessType: AccessType)

  /** An opaque, driver- or extension-specific memory kind known only by its type name. */
  datatype GPUCustomMemoryDescriptor = GPUCustomMemoryDescriptor(typeName: string)

  /** A linear buffer: element stride in bytes, address space and an ordered list of
      free-form attribute tags. */
  datatype GPUBufferDescriptor = GPUBufferDescriptor(
    dataType: DataType,
    accessType: AccessType,
    elementSize: int32,
    memoryType: MemoryType,
    attributes: seq<string>)

  /** A buffer written as the aggregate initializer `{data_type, access_type, element_size}`:
      the members it leaves out take their default member initializers, so the buffer
      lives in global memory and carries no attributes. */
  function DefaultBuffer(dataType: DataType, accessType: AccessType, elementSize: int32): (b: GPUBufferDescriptor)
    ensures b.memoryType == Global
    ensures b.attributes == []
    ensures b.dataType == dataType && b.accessType == accessType && b.elementSize == elementSize
  {
    GPUBufferDescriptor(dataType, accessType, elementSize, Global, [])
  }
}
