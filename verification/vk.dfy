/** Vulkan vocabulary shared by the device and validation models: result codes and
    enumerant values as the Vulkan headers define them, and the plain records a driver
    reports about a surface. Handles handed out by the driver are opaque values. */
module Vk {

  datatype Option<+T> = None | Some(value: T)

  const UINT32_MODULUS: int := 0x1_0000_0000

  /** C's `uint32_t`. Arithmetic on it wraps; see `AddU32`. */
  type uint32 = x: int | 0 <= x < UINT32_MODULUS

  /** Addition of two `uint32_t` values as C performs it: the sum wraps modulo 2^32. */
  function AddU32(a: uint32, b: uint32): (r: uint32)
    ensures a + b < UINT32_MODULUS ==> r == a + b
    ensures a + b >= UINT32_MODULUS ==> r == a + b - UINT32_MODULUS
  {
    (a + b) % UINT32_MODULUS
  }

  /** `VkResult`: zero is success and negative values are errors. Every code a driver or
      a foreign function may return is representable. */
  type VkResult = int

  const VK_SUCCESS: VkResult := 0
  const VK_SUBOPTIMAL_KHR: VkResult := 1000001003
  const VK_ERROR_INITIALIZATION_FAILED: VkResult := -3
  const VK_ERROR_DEVICE_LOST: VkResult := -4
  const VK_ERROR_EXTENSION_NOT_PRESENT: VkResult := -7
  const VK_ERROR_UNKNOWN: VkResult := -13

  type VkBool32 = uint32

  const VK_FALSE: VkBool32 := 0

  /** An opaque driver handle (a `VkImage`, for one). */
  type Handle = nat

  type VkFormat = int
  type VkColorSpace = int

  const VK_FORMAT_B8G8R8A8_SRGB: VkFormat := 50
  const VK_COLOR_SPACE_SRGB_NONLINEAR_KHR: VkColorSpace := 0

  /** `VkSurfaceFormatKHR` */
  datatype SurfaceFormat = SurfaceFormat(format: VkFormat, colorSpace: VkColorSpace)

  type VkPresentMode = int

  const VK_PRESENT_MODE_IMMEDIATE_KHR: VkPresentMode := 0
  const VK_PRESENT_MODE_MAILBOX_KHR: VkPresentMode := 1
  const VK_PRESENT_MODE_FIFO_KHR: VkPresentMode := 2

  /** `VkExtent2D` */
  datatype Extent2D = Extent2D(width: uint32, height: uint32)

  /** The fields of `VkSurfaceCapabilitiesKHR` the core reads. A `maxImageCount` of zero
      means the surface declares no maximum. */
  datatype SurfaceCapabilities = SurfaceCapabilities(
    minImageCount: uint32,
    maxImageCount: uint32,
    currentTransform: bv32)
}
